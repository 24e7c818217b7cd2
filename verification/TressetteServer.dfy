/**
 The match object of the server: the fields its handlers update in place. Each handler is proved
 to take the object from the state it was in to the state `TressetteMatch` gives, loops included.
 */
module TressetteServer {
  import opened Options
  import opened Sets
  import opened CardLists
  import opened TressetteCards
  import opened DelayedTasks
  import opened TressetteMatch
  import opened MatchRuns
  import opened MatchShape
  import MatchBots
  import MatchTheorems
  import Ai = TressetteBot

  // ----- loops over the seats -----

  method ResetAll(seats: seq<Seat>) returns (r: seq<Seat>)
    ensures r == ResetSeats(seats)
  {
    r := [];
    for i := 0 to |seats|
      invariant r == ResetSeats(seats)[..i]
    {
      r := r + [seats[i].(points := 0, lastTrick := 0, isAuto := false, onTurn := false, cards := [])];
    }
  }

  method DealAll(seats: seq<Seat>, shuffled: seq<int>) returns (r: seq<Seat>)
    requires |shuffled| >= HAND_SIZE * |seats|
    ensures r == DealtSeats(seats, shuffled)
  {
    r := seats;
    for i := 0 to |seats|
      invariant |r| == |seats|
      invariant forall k :: 0 <= k < |seats| ==> r[k] == if k < i then DealtSeats(seats, shuffled)[k] else seats[k]
    {
      r := r[i := r[i].(cards := shuffled[HAND_SIZE * i..HAND_SIZE * i + HAND_SIZE])];
    }
  }

  /** Solo: every seat drops its own remainder. */
  method TrimAll(seats: seq<Seat>) returns (r: seq<Seat>)
    ensures r == Trimmed(seats, SOLO)
  {
    r := seats;
    for i := 0 to |seats|
      invariant |r| == |seats|
      invariant forall k :: 0 <= k < |seats| ==> r[k] == if k < i then seats[k].(points := Trim(seats[k].points)) else seats[k]
    {
      r := r[i := r[i].(points := r[i].points - r[i].points % 3)];
    }
  }

  /** Duo: a team whose score is not whole points drops the remainder of each of its seats. */
  method TrimTeam(seats: seq<Seat>, team: int) returns (r: seq<Seat>)
    ensures r == if OccupiedTeamScore(seats, team) % 3 > 0 then TrimSeats(seats, {team}) else seats
  {
    var score := 0;
    for i := 0 to |seats|
      invariant score == OccupiedTeamScore(seats[..i], team)
    {
      assert seats[..i + 1][..i] == seats[..i];
      if !seats[i].Empty() && seats[i].team == team {
        score := score + seats[i].points;
      }
    }
    assert seats[..|seats|] == seats;
    r := seats;
    if score % 3 > 0 {
      for i := 0 to |seats|
        invariant |r| == |seats|
        invariant forall k :: 0 <= k < |seats| ==> r[k] == if k < i then TrimSeats(seats, {team})[k] else seats[k]
      {
        if !r[i].Empty() && r[i].team == team {
          r := r[i := r[i].(points := r[i].points - r[i].points % 3)];
        }
      }
    }
  }

  method TrimSeatPoints(seats: seq<Seat>, playerMode: nat) returns (r: seq<Seat>)
    ensures r == Trimmed(seats, playerMode)
  {
    if playerMode == SOLO {
      r := TrimAll(seats);
    } else {
      r := TrimTeam(seats, 0);
      r := TrimTeam(r, 1);
    }
  }

  method TeamScores(seats: seq<Seat>) returns (score1: int, score2: int)
    ensures score1 == TeamScore(seats, 0) && score2 == TeamScore(seats, 1)
  {
    score1, score2 := 0, 0;
    for i := 0 to |seats|
      invariant score1 == TeamScore(seats[..i], 0) && score2 == TeamScore(seats[..i], 1)
    {
      assert seats[..i + 1][..i] == seats[..i];
      if seats[i].team == 0 {
        score1 := score1 + seats[i].points;
      } else if seats[i].team == 1 {
        score2 := score2 + seats[i].points;
      }
    }
    assert seats[..|seats|] == seats;
  }

  method DrawAll(seats: seq<Seat>, deck: seq<int>) returns (r: seq<Seat>, d: seq<int>)
    ensures (r, d) == DrawFrom(seats, deck, 0)
  {
    r, d := seats, deck;
    var i := 0;
    while i < |r| && d != []
      invariant 0 <= i <= |r| == |seats|
      invariant DrawFrom(r, d, i) == DrawFrom(seats, deck, 0)
    {
      var card := d[|d| - 1];
      r := r[i := r[i].(cards := r[i].cards + [card])];
      d := d[..|d| - 1];
      i := i + 1;
    }
  }

  method CountNapoli(hand: seq<int>) returns (sets: nat)
    ensures sets == NapoliSets(hand)
  {
    sets := 0;
    for s := 0 to 4
      invariant sets == (if s > 0 then NapoliIn(hand, 0) else 0) + (if s > 1 then NapoliIn(hand, 1) else 0)
                        + (if s > 2 then NapoliIn(hand, 2) else 0) + (if s > 3 then NapoliIn(hand, 3) else 0)
    {
      if s in hand && s + 4 in hand && s + 8 in hand {
        sets := sets + 1;
      }
    }
  }

  lemma {:induction false} FirstIsHere(cards: seq<int>, k: nat, suit: int)
    requires k < |cards| && Suit(cards[k]) == suit && !HasSuit(cards[..k], suit)
    ensures HasSuit(cards, suit) && FirstIn(cards, suit) == cards[k]
  {
    assert cards[k] in cards;
    if k > 0 {
      assert cards[0] in cards[..k];
      assert forall c :: c in cards[1..][..k - 1] ==> c in cards[..k];
      FirstIsHere(cards[1..], k - 1, suit);
    }
  }

  method AutoCard(cards: seq<int>, suit: int) returns (card: int)
    requires cards != []
    ensures card == FirstOfSuit(cards, suit)
  {
    card := cards[0];
    for k := 0 to |cards|
      invariant card == cards[0] && !HasSuit(cards[..k], suit)
    {
      if Suit(cards[k]) == suit {
        FirstIsHere(cards, k, suit);
        return cards[k];
      }
      assert cards[..k + 1] == cards[..k] + [cards[k]];
    }
    assert cards[..|cards|] == cards;
  }

  // ----- leaving one by one -----

  ghost predicate DistinctUids(seats: seq<Seat>) {
    forall i, j :: 0 <= i < j < |seats| && !seats[i].Empty() ==> seats[i].uid != seats[j].uid
  }

  lemma LeaveNobody(m: Match)
    ensures m.LeaveAll({}) == m
  {
  }

  lemma LeftState(m: Match, uids: set<int>)
    ensures m.LeaveAll(uids).seats == Vacate(m.seats, uids)
    ensures m.LeaveAll(uids).viewers == m.viewers - uids
    ensures m.LeaveAll(uids).leavers == m.leavers - m.Here(uids)
  {
    forall u | u in m.viewers && u in uids ensures u in m.Here(uids) {
    }
    forall i | 0 <= i < |m.seats| ensures m.LeaveAll(uids).seats[i] == Vacate(m.seats, uids)[i] {
      SeatMissing(m.seats, m.seats[i].uid);
    }
  }

  lemma StillHere(m: Match, gone: set<int>, uid: int)
    requires uid !in gone
    ensures m.LeaveAll(gone).HasUser(uid) <==> m.HasUser(uid)
  {
    LeftState(m, gone);
    SeatMissing(m.seats, uid);
    SeatMissing(m.LeaveAll(gone).seats, uid);
  }

  /** Leaving one after the other is leaving together. */
  lemma LeaveOneMore(m: Match, gone: set<int>, uid: int)
    requires uid !in gone
    ensures m.LeaveAll(gone).UserLeave(uid) == m.LeaveAll(gone + {uid})
  {
    var left := m.LeaveAll(gone);
    var both := m.LeaveAll(gone + {uid});
    LeftState(m, gone);
    LeftState(m, gone + {uid});
    LeftState(left, {uid});
    StillHere(m, gone, uid);
    assert m.Here(gone + {uid}) == m.Here(gone) + left.Here({uid});
    assert left.UserLeave(uid).seats == both.seats;
    assert left.UserLeave(uid).viewers == both.viewers;
    assert left.UserLeave(uid).leavers == both.leavers;
  }

  // ----- hands and deck hold no placeholder -----

  ghost predicate Real(m: Match) {
    NO_CARD !in m.deck && forall i :: 0 <= i < |m.seats| ==> NO_CARD !in m.seats[i].cards
  }

  lemma WithoutReal(cards: seq<int>, card: int)
    requires NO_CARD !in cards
    ensures NO_CARD !in Without(cards, card)
  {
  }

  lemma EndHandReal(m: Match, now: int)
    requires Real(m)
    ensures Real(m.EndHand(now))
  {
  }

  lemma AcceptReal(m: Match, i: nat, card: int, now: int)
    requires i < |m.seats| == |m.table| && Real(m) && NO_CARD !in Without(m.seats[i].cards, card)
    ensures Real(m.Accept(i, card, now))
  {
    var placed := m.Placed(i, card);
    assert Real(placed);
    if NO_CARD !in placed.table { EndHandReal(placed.(turn := -1), now); }
  }

  lemma PlayReal(m: Match, uid: int, card: int, isAuto: bool, now: int)
    requires Real(m)
    ensures Real(m.PlayCard(uid, card, isAuto, now).0)
  {
    var (m', reply) := m.PlayCard(uid, card, isAuto, now);
    if reply.Accepted? {
      var i := m.FindPlayer(uid);
      WithoutReal(m.seats[i].cards, card);
      AcceptReal(m.Held(i, isAuto), i, card, now);
    }
  }

  lemma SeatTurnReal(m: Match, i: nat, tick: Tick)
    requires i < |m.seats| && Real(m)
    ensures Real(m.SeatTurn(i, tick.now, tick.expired))
  {
    if m.seats[i].cards != [] {
      PlayReal(m, m.seats[i].uid, m.BotCard(i), false, tick.now);
      var auto := m.(seats := m.seats[i := m.seats[i].(isAuto := true)]);
      PlayReal(auto, m.seats[i].uid, FirstOfSuit(m.seats[i].cards, m.suit), true, tick.now);
    }
  }

  lemma BotViewSafe(m: Match, i: nat)
    requires i < |m.seats| && Real(m)
    ensures Ai.KeySafe(m.BotView(i), m.BotLead())
  {
    MatchBots.OpponentSits(m, i, 0);
  }

  lemma {:induction false} DrawReal(seats: seq<Seat>, deck: seq<int>, i: nat)
    requires i <= |seats| && NO_CARD !in deck && forall k :: 0 <= k < |seats| ==> NO_CARD !in seats[k].cards
    ensures var (s, d) := DrawFrom(seats, deck, i); NO_CARD !in d && forall k :: 0 <= k < |s| ==> NO_CARD !in s[k].cards
    decreases |seats| - i
  {
    if i < |seats| && deck != [] {
      var n := |deck| - 1;
      DrawReal(seats[i := seats[i].(cards := seats[i].cards + [deck[n]])], deck[..n], i + 1);
    }
  }

  lemma TaskReal(m: Match, task: Task, now: int, shuffled: seq<int>)
    requires Real(m) && NO_CARD !in shuffled
    ensures Real(m.RunTask(task, now, shuffled))
  {
    match task
    case DrawCards => DrawReal(m.seats, m.deck, 0);
    case KickLeavers => LeftState(m, m.leavers + SelfPlaying(m.seats));
    case _ =>
  }

  lemma {:induction false} RunDueReal(m: Match, now: int, shuffled: seq<int>)
    requires Real(m) && NO_CARD !in shuffled
    ensures Real(RunDue(m, now, shuffled))
    decreases m.queue.DueCount(now)
  {
    if m.queue.HasDue(now) {
      TaskKeepsDue(Popped(m), m.queue.tasks[0].task, now, shuffled);
      TaskReal(Popped(m), m.queue.tasks[0].task, now, shuffled);
      RunDueReal(Popped(m).RunTask(m.queue.tasks[0].task, now, shuffled), now, shuffled);
    }
  }

  lemma {:induction false} TurnsReal(m: Match, i: nat, tick: Tick)
    requires i <= |m.seats| && Real(m)
    ensures Real(m.AllTurns(i, tick))
    decreases |m.seats| - i
  {
    if i < |m.seats| {
      var m' := m.SeatTurn(i, tick.now, tick.expired);
      SeatTurnReal(m, i, tick);
      if |m'.seats| == |m.seats| { TurnsReal(m', i + 1, tick); }
    }
  }

  lemma LoopReal(m: Match, tick: Tick)
    requires Real(m) && NO_CARD !in tick.shuffled
    ensures Real(MatchRuns.Loop(m, tick))
  {
    RunDueReal(m, tick.now, tick.shuffled);
    TurnsReal(RunDue(m, tick.now, tick.shuffled), 0, tick);
  }

  lemma JoinReal(m: Match, uid: int)
    requires Real(m)
    ensures Real(m.TryJoin(uid, false, 1))
  {
  }

  lemma PacketReal(m: Match, now: int, e: Event)
    requires Real(m) && !e.Play? && !e.Elapse?
    ensures Real(MatchRuns.Handle(m, now, e))
  {
    match e
    case Join(uid) => JoinReal(m, uid);
    case EnterSeat(uid, _) => JoinReal(m, uid);
    case LeaveTable(uid, _) => LeftState(m, {uid});
    case Drop(uid) => LeftState(m, {uid});
    case _ =>
  }

  /** Every entry into the match keeps placeholders out of hands and deck. */
  lemma StepReal(m: Match, now: int, e: Event)
    requires Real(m) && (e.Elapse? ==> NO_CARD !in e.tick.shuffled)
    ensures Real(Step(m, now, e))
  {
    match e
    case Play(uid, card) => PlayReal(At(m, now), uid, card, false, now);
    case Elapse(tick) => LoopReal(At(m, now), tick);
    case _ => PacketReal(At(m, now), now, e);
  }

  // ----- seats stay distinct -----

  lemma JoinDistinct(m: Match, uid: int, isBot: bool, depth: int)
    requires DistinctUids(m.seats)
    ensures DistinctUids(m.TryJoin(uid, isBot, depth).seats)
  {
    SeatMissing(m.seats, uid);
  }

  lemma LeaveDistinct(m: Match, uids: set<int>)
    requires DistinctUids(m.seats)
    ensures DistinctUids(m.LeaveAll(uids).seats)
  {
  }

  lemma {:induction false} RunDueDistinct(m: Match, now: int, shuffled: seq<int>)
    requires DistinctUids(m.seats)
    ensures DistinctUids(RunDue(m, now, shuffled).seats)
    decreases m.queue.DueCount(now)
  {
    if m.queue.HasDue(now) {
      var task := m.queue.tasks[0].task;
      TaskKeepsDue(Popped(m), task, now, shuffled);
      if task.KickLeavers? {
        LeaveDistinct(Popped(m), m.leavers + SelfPlaying(m.seats));
      } else {
        MatchTheorems.TaskPeople(Popped(m), task, now, shuffled);
      }
      RunDueDistinct(Popped(m).RunTask(task, now, shuffled), now, shuffled);
    }
  }

  lemma AfterTasksDistinct(m: Match, tick: Tick)
    requires DistinctUids(m.seats)
    ensures DistinctUids(m.AfterTasks(tick).seats)
  {
    match m.phase
    case Playing => MatchTheorems.TurnsPeople(m, 0, tick);
    case Waiting => if tick.bot.Some? { JoinDistinct(m, tick.bot.value, true, tick.botDepth); }
    case _ =>
  }

  lemma LoopDistinct(m: Match, tick: Tick)
    requires DistinctUids(m.seats)
    ensures DistinctUids(MatchRuns.Loop(m, tick).seats)
  {
    RunDueDistinct(m, tick.now, tick.shuffled);
    AfterTasksDistinct(RunDue(m, tick.now, tick.shuffled), tick);
  }

  lemma PacketDistinct(m: Match, now: int, e: Event)
    requires DistinctUids(m.seats) && !e.Elapse?
    ensures DistinctUids(MatchRuns.Handle(m, now, e).seats)
  {
    match e
    case Join(uid) => JoinDistinct(m, uid, false, 1);
    case EnterSeat(uid, _) => JoinDistinct(m, uid, false, 1);
    case LeaveTable(uid, _) => LeaveDistinct(m, {uid});
    case Drop(uid) => LeaveDistinct(m, {uid});
    case Play(uid, card) => MatchTheorems.PlayPeople(m, uid, card, false, now);
    case Return(uid) => assert MatchTheorems.SamePeople(m, m.ReturnToTable(uid));
    case ClaimNapoli(uid) => assert MatchTheorems.SamePeople(m, m.Napoli(uid));
  }

  /** Every entry into the match keeps the users of its seats distinct. */
  lemma StepDistinct(m: Match, now: int, e: Event)
    requires DistinctUids(m.seats)
    ensures DistinctUids(Step(m, now, e).seats)
  {
    var at := At(m, now);
    match e
    case Elapse(tick) =>
      LoopDistinct(at, tick);
    case _ => PacketDistinct(at, now, e);
  }

  // ----- the match object -----

  class Tressette {
    const playerMode: nat
    const pointMode: int
    const delayedTasks: DelayedTaskQueue<Task>
    var phase: Phase
    var seats: seq<Seat>
    var viewers: set<int>
    var leavers: set<int>
    var table: seq<int>
    var deck: seq<int>
    var turn: int
    var suit: int
    var curRound: int
    var handInRound: int
    var teamScore1: int
    var teamScore2: int
    var lastWon: int
    var winTeam: int
    var napoli: set<int>
    var inGame: bool
    var timeStart: int
    ghost var ledger: Ledger

    ghost function State(): Match
      reads this, delayedTasks
    {
      Match(playerMode, pointMode, phase, seats, viewers, leavers, table, deck, turn, suit, curRound, handInRound,
            teamScore1, teamScore2, lastWon, winTeam, napoli, inGame, timeStart, delayedTasks.queue, ledger)
    }

    ghost predicate Valid()
      reads this, delayedTasks
    {
      delayedTasks.queue.Valid() && |table| == |seats| == playerMode && playerMode > 0
    }

    constructor (playerMode: nat, pointMode: int, ghost clock: nat)
      requires playerMode > 0
      ensures Valid() && fresh(delayedTasks)
      ensures State() == NewMatch(playerMode, pointMode, clock)
      ensures DistinctUids(seats) && Real(State())
    {
      this.playerMode, this.pointMode := playerMode, pointMode;
      delayedTasks := new DelayedTaskQueue<Task>();
      phase, viewers, leavers, deck := Waiting, {}, {}, [];
      seats := seq(playerMode, i => VACANT.(team := i % 2));
      table := ClearTable(playerMode);
      turn, suit, curRound, handInRound, teamScore1, teamScore2 := 0, 0, 0, 0, 0, 0;
      lastWon, winTeam, napoli, inGame, timeStart := NO_WINNER, -1, {}, false, -1;
      ledger := Ledger([], [], 0, false, 0, false, clock, clock, clock);
    }

    method Push(now: int, delayMs: int, task: Task)
      requires Valid()
      modifies delayedTasks
      ensures Valid() && State() == old(State()).PushAfter(now, delayMs, task)
    {
      var _ := delayedTasks.PushAfter(now, delayMs, task);
    }

    // ----- lookups -----

    method FindPlayerIndex(uid: int) returns (idx: int)
      ensures idx == State().FindPlayer(uid)
    {
      for i := 0 to |seats|
        invariant forall j :: 0 <= j < i ==> seats[j].Empty() || seats[j].uid != uid
      {
        if !seats[i].Empty() && seats[i].uid == uid {
          SeatFound(seats, i);
          return i;
        }
      }
      if uid != EMPTY_UID { SeatMissing(seats, uid); }
      return -1;
    }

    method CheckDoneHand() returns (done: bool)
      ensures done <==> NO_CARD !in table
    {
      for i := 0 to |table|
        invariant NO_CARD !in table[..i]
      {
        if table[i] == NO_CARD {
          return false;
        }
      }
      assert table[..|table|] == table;
      return true;
    }

    method CheckRoomFull() returns (full: bool)
      ensures full <==> Full(seats)
    {
      var count := 0;
      for i := 0 to |seats|
        invariant 0 <= count <= i
        invariant count == i <==> forall j :: 0 <= j < i ==> !seats[j].Empty()
      {
        if !seats[i].Empty() {
          count := count + 1;
        }
      }
      return count >= |seats|;
    }

    // ----- joining and leaving -----

    method TryJoin(uid: int, isBot: bool, depth: int)
      requires Valid()
      modifies this
      ensures Valid() && State() == old(State()).TryJoin(uid, isBot, depth)
    {
      var idx := FindPlayerIndex(uid);
      if idx >= 0 {
        return;
      }
      viewers := viewers - {uid};
      var slot := -1;
      for i := 0 to |seats|
        invariant slot == -1 && forall j :: 0 <= j < i ==> !seats[j].Empty()
        invariant State() == old(State()).(viewers := viewers) && viewers == old(viewers) - {uid}
      {
        if seats[i].Empty() {
          slot := i;
          SeatFound(seats, i);
          break;
        }
      }
      if slot >= 0 {
        seats := seats[slot := seats[slot].(uid := uid, isBot := isBot)];
        if isBot {
          seats := seats[slot := seats[slot].(depth := depth)];
        }
      } else {
        SeatMissing(seats, EMPTY_UID);
        viewers := viewers + {uid};
      }
    }

    method LeaveSeat(uid: int, idx: int)
      requires DistinctUids(seats) && idx == State().FindPlayer(uid)
      modifies `seats
      ensures seats == Vacate(old(seats), {uid})
    {
      if idx >= 0 {
        seats := seats[idx := VACANT];
      } else if uid != EMPTY_UID {
        SeatMissing(seats, uid);
      }
    }

    method LeaveLists(uid: int)
      modifies `viewers, `leavers
      ensures viewers == old(viewers) - {uid} && leavers == old(leavers) - {uid}
    {
      viewers := viewers - {uid};
      leavers := leavers - {uid};
    }

    method Remove(uid: int, idx: int)
      requires Valid() && DistinctUids(seats) && idx == State().FindPlayer(uid)
      modifies this
      ensures Valid() && State() == old(State()).Left({uid})
    {
      LeaveSeat(uid, idx);
      LeaveLists(uid);
      if phase.PreparingStart? {
        phase := Waiting;
      }
    }

    method UserLeave(uid: int)
      requires Valid() && DistinctUids(seats)
      modifies this
      ensures Valid() && State() == old(State()).UserLeave(uid)
    {
      var idx := FindPlayerIndex(uid);
      ghost var gone := State().Here({uid});
      if idx < 0 && uid !in viewers {
        assert gone == {};
        return;
      }
      assert gone == {uid};
      Remove(uid, idx);
    }

    method RegisterLeave(uid: int, status: int)
      requires Valid() && DistinctUids(seats)
      modifies this
      ensures Valid() && State() == old(State()).RegisterLeave(uid, status)
    {
      var idx := FindPlayerIndex(uid);
      if inGame && idx >= 0 {
        leavers := if status == 0 then leavers + {uid} else leavers - {uid};
        return;
      }
      UserLeave(uid);
    }

    method UserDisconnect(uid: int)
      requires Valid() && DistinctUids(seats)
      modifies this
      ensures Valid() && State() == old(State()).Disconnect(uid)
    {
      var idx := FindPlayerIndex(uid);
      if idx < 0 && uid !in viewers {
        return;
      }
      if inGame && idx >= 0 {
        return;
      }
      UserLeave(uid);
    }

    method UserReturnToTable(uid: int)
      requires Valid()
      modifies this
      ensures Valid() && State() == old(State()).ReturnToTable(uid)
    {
      var idx := FindPlayerIndex(uid);
      if idx < 0 {
        return;
      }
      if seats[idx].isAuto {
        seats := seats[idx := seats[idx].(isAuto := false)];
      }
      assert seats == old(State()).ReturnToTable(uid).seats;
    }

    method ViewerEnterMatch(uid: int, seatIdx: int)
      requires Valid()
      modifies this
      ensures Valid() && State() == old(State()).ViewerEnter(uid, seatIdx)
    {
      if uid !in viewers || seatIdx < 0 || seatIdx >= playerMode {
        return;
      }
      TryJoin(uid, false, 1);
    }

    // ----- one game -----

    method PrepareStartGame(now: int)
      requires Valid()
      modifies this
      ensures Valid() && State() == old(State()).PrepareStart(now)
    {
      phase := PreparingStart;
      timeStart := now + TIME_PREPARE_START;
    }

    method ClearCards()
      modifies `table, `deck, `suit
      ensures table == ClearTable(|seats|) && deck == [] && suit == -1
    {
      table, deck, suit := ClearTable(|seats|), [], -1;
    }

    method RestartCount()
      modifies `turn, `curRound, `handInRound
      ensures turn == 0 && curRound == 0 && handInRound == -1
    {
      turn, curRound, handInRound := 0, 0, -1;
    }

    method SweepTable()
      requires Valid()
      modifies this
      ensures Valid() && State() == old(State()).Swept()
    {
      ClearCards();
      RestartCount();
    }

    method ForgetScores()
      modifies `leavers, `teamScore1, `teamScore2, `lastWon
      ensures leavers == {} && teamScore1 == 0 && teamScore2 == 0 && lastWon == NO_WINNER
    {
      leavers, teamScore1, teamScore2, lastWon := {}, 0, 0, NO_WINNER;
    }

    method ResetScores(blank: seq<Seat>)
      requires Valid() && |blank| == |seats|
      modifies this
      ensures Valid() && State() == old(State()).Zeroed(blank)
    {
      ForgetScores();
      seats := blank;
      ledger := ledger.(won := [], overwritten := [], napoliSets := 0, lastTrickPaid := false, base := 0, early := false);
    }

    method ResetGame(now: int)
      requires Valid()
      modifies this
      ensures Valid() && State() == old(State()).Reset(now)
    {
      SweepTable();
      var blank := ResetAll(seats);
      ResetScores(blank);
      phase, timeStart, inGame := Playing, now, true;
    }

    method StartGame(now: int)
      requires Valid()
      modifies this, delayedTasks
      ensures Valid() && State() == old(State()).StartGame(now)
    {
      ResetGame(now);
      Push(now, 1_000, NewRound);
    }

    method StopPlaying()
      modifies `phase, `timeStart, `inGame
      ensures phase == Ended && timeStart == -1 && !inGame
    {
      phase, timeStart, inGame := Ended, -1, false;
    }

    method CloseGame(ghost now: int)
      requires Valid()
      modifies this
      ensures Valid() && State() == old(State()).Closed(now)
    {
      StopPlaying();
      winTeam := if teamScore1 > teamScore2 then 0 else 1;
      ledger := ledger.(endedAt := now);
    }

    method EndGame(now: int)
      requires Valid()
      modifies this, delayedTasks
      ensures Valid() && State() == old(State()).EndGame(now)
    {
      CloseGame(now);
      Push(now, 2_000, AnnounceEnd);
      Push(now, 6_000, KickLeavers);
      Push(now, 7_000, PrepareNext);
    }

    method DealCards(shuffled: seq<int>)
      requires Valid() && |shuffled| >= HAND_SIZE * |seats|
      modifies this
      ensures Valid() && State() == old(State()).Deal(shuffled)
    {
      seats := DealAll(seats, shuffled);
      deck := shuffled[HAND_SIZE * |seats|..];
    }

    method CountHand()
      modifies `suit, `handInRound
      ensures suit == -1 && handInRound == old(handInRound) + 1
    {
      suit := -1;
      handInRound := handInRound + 1;
    }

    method HandleNewHand()
      requires Valid()
      modifies this
      ensures Valid() && State() == old(State()).OpenHand()
    {
      CountHand();
      if lastWon != NO_WINNER {
        var idx := FindPlayerIndex(lastWon);
        turn := if idx >= 0 then idx else 0;
      } else {
        turn := 0;
      }
      if turn < 0 || turn >= |seats| {
        return;
      }
      seats := seats[turn := seats[turn].(onTurn := true)];
    }

    method CheckEndGame() returns (over: bool)
      requires Valid()
      modifies this`teamScore1, this`teamScore2
      ensures teamScore1 == TeamScore(seats, 0) && teamScore2 == TeamScore(seats, 1)
      ensures over == State().ReachedTarget()
    {
      teamScore1, teamScore2 := TeamScores(seats);
      over := teamScore1 >= pointMode * 3 || teamScore2 >= pointMode * 3;
    }

    method PaySeat(winner: nat, winScore: int, endRound: bool)
      requires winner < |seats|
      modifies `lastWon, `seats
      ensures lastWon == old(seats[winner].uid)
      ensures var bonus := if endRound then 3 else 0;
              var seat := old(seats[winner]);
              seats == old(seats)[winner := seat.(points := seat.points + winScore + bonus, lastTrick := seat.lastTrick + bonus)]
    {
      lastWon := seats[winner].uid;
      seats := seats[winner := seats[winner].(points := seats[winner].points + winScore)];
      if endRound {
        seats := seats[winner := seats[winner].(points := seats[winner].points + 3, lastTrick := seats[winner].lastTrick + 3)];
      }
    }

    method PayWinner(winner: nat, endRound: bool)
      requires Valid() && winner < |seats| && (endRound <==> deck == [] && seats[0].cards == [])
      modifies this
      ensures Valid() && State() == old(State()).Paid(winner)
    {
      var winScore := WinScore(table);
      PaySeat(winner, winScore, endRound);
      ledger := ledger.(won := ledger.won + table, lastTrickPaid := ledger.lastTrickPaid || endRound);
      table := ClearTable(|table|);
    }

    method GoOn(now: int, endRound: bool)
      requires Valid()
      modifies this, delayedTasks
      ensures Valid() && State() == old(State()).AfterHand(now, endRound)
    {
      var over := CheckEndGame();
      assert State() == old(State()).Scored();
      if over {
        EndGame(now);
      } else if endRound {
        Push(now, 4_000, NewRound);
      } else if deck != [] {
        Push(now, 2_000, DrawCards);
        Push(now, 5_500, NewHand);
      } else {
        Push(now, 2_000, NewHand);
      }
    }

    /** The trick is full: pay, clear, and go on, end the round or end the game. */
    method EndHand(now: int)
      requires Valid() && NO_CARD !in table
      modifies this, delayedTasks
      ensures Valid() && State() == old(State()).EndHand(now)
    {
      var winCard := WinCard(table, suit);
      var winner := SlotOf(table, winCard);
      if winner < 0 || winner >= |seats| {
        return;
      }
      var endRound := deck == [] && seats[0].cards == [];
      PayWinner(winner, endRound);
      GoOn(now, endRound);
    }

    method HandOver(idx: nat, card: int)
      requires idx < |seats|
      modifies `seats, `suit
      ensures seats == old(seats)[idx := old(seats[idx]).(cards := Without(old(seats[idx].cards), card), onTurn := false)]
      ensures suit == if old(suit) == -1 then Suit(card) else old(suit)
    {
      var rest := RemoveOneCard(seats[idx].cards, card);
      seats := seats[idx := seats[idx].(cards := rest, onTurn := false)];
      if suit == -1 {
        suit := Suit(card);
      }
    }

    method PlaceCard(idx: nat, card: int)
      requires Valid() && idx < |seats|
      modifies this
      ensures Valid() && State() == old(State()).Placed(idx, card)
    {
      HandOver(idx, card);
      ledger := ledger.(overwritten := if table[idx] == NO_CARD then ledger.overwritten else ledger.overwritten + [table[idx]],
                        early := ledger.early || handInRound == -1);
      table := table[idx := card];
    }

    method AcceptCard(idx: nat, card: int, now: int)
      requires Valid() && idx < |seats|
      modifies this, delayedTasks
      ensures Valid() && State() == old(State()).Accept(idx, card, now)
    {
      PlaceCard(idx, card);
      var finished := CheckDoneHand();
      if finished {
        turn := -1;
        EndHand(now);
      } else {
        turn := if turn + 1 == playerMode then 0 else turn + 1;
        if 0 <= turn < |seats| {
          seats := seats[turn := seats[turn].(onTurn := true)];
        }
      }
    }

    method HandlePlayCard(uid: int, card: int, isAuto: bool, now: int) returns (reply: PlayReply)
      requires Valid()
      modifies this, delayedTasks
      ensures Valid() && (State(), reply) == old(State()).PlayCard(uid, card, isAuto, now)
    {
      if !phase.Playing? {
        return Ignored;
      }
      var done := CheckDoneHand();
      if done {
        return Ignored;
      }
      var idx := FindPlayerIndex(uid);
      if idx < 0 || turn != idx {
        return Ignored;
      }
      if !isAuto {
        seats := seats[idx := seats[idx].(isAuto := false)];
      }
      assert seats == old(State()).Held(idx, isAuto).seats;
      if suit != -1 && Suit(card) != suit && HasSuit(seats[idx].cards, suit) {
        return InvalidSuit;
      }
      if card !in seats[idx].cards {
        return InvalidCard;
      }
      assert State() == old(State()).Held(idx, isAuto);
      AcceptCard(idx, card, now);
      return Accepted;
    }

    method HandleDrawCard()
      requires Valid()
      modifies this
      ensures Valid() && State() == old(State()).Draw()
    {
      seats, deck := DrawAll(seats, deck);
    }

    method CountRound()
      modifies `curRound, `napoli, `handInRound
      ensures curRound == old(curRound) + 1 && napoli == {} && handInRound == -1
    {
      curRound, napoli, handInRound := curRound + 1, {}, -1;
    }

    method BeginRound(trimmed: seq<Seat>)
      requires Valid() && |trimmed| == |seats|
      modifies this
      ensures Valid() && State() == old(State()).RoundWith(trimmed)
    {
      CountRound();
      seats := trimmed;
      ledger := ledger.(won := [], overwritten := [], napoliSets := 0, lastTrickPaid := false, base := SumPoints(trimmed));
    }

    method TrimPoints()
      requires Valid()
      modifies this
      ensures Valid() && State() == old(State()).NextRound()
    {
      var trimmed := TrimSeatPoints(seats, playerMode);
      BeginRound(trimmed);
    }

    method HandleNewRound(now: int)
      requires Valid()
      modifies this, delayedTasks
      ensures Valid() && State() == old(State()).StartRound(now)
    {
      TrimPoints();
      Push(now, 1_000, TressetteMatch.DealCards);
      Push(now, 2_000, NewHand);
    }

    method PayNapoli(uid: int, idx: nat, sets: nat)
      requires Valid() && idx < |seats|
      modifies this
      ensures Valid() && State() == old(State()).NapoliPaid(uid, idx, sets)
    {
      napoli := napoli + {uid};
      seats := seats[idx := seats[idx].(points := seats[idx].points + 3 * sets)];
      ledger := ledger.(napoliSets := ledger.napoliSets + sets);
    }

    method HandleNapoli(uid: int)
      requires Valid()
      modifies this
      ensures Valid() && State() == old(State()).Napoli(uid)
    {
      if uid in napoli {
        return;
      }
      var idx := SeatWithUid(seats, uid);
      if idx < 0 {
        return;
      }
      var sets := CountNapoli(seats[idx].cards);
      if sets == 0 {
        return;
      }
      PayNapoli(uid, idx, sets);
    }

    // ----- automatic seats, tasks and ticks -----

    method AutoPlay(i: nat, now: int)
      requires Valid() && i < |seats|
      modifies this, delayedTasks
      ensures Valid() && State() == old(State()).AutoPlay(i, now)
    {
      seats := seats[i := seats[i].(isAuto := true)];
      var cards := seats[i].cards;
      if cards == [] {
        return;
      }
      var card := AutoCard(cards, suit);
      var _ := HandlePlayCard(seats[i].uid, card, true, now);
    }

    method BotPlayCard(i: nat, now: int)
      requires Valid() && i < |seats|
      requires Ai.KeySafe(State().BotView(i), State().BotLead())
      modifies this, delayedTasks
      ensures Valid() && State() == old(State()).BotPlay(i, now)
    {
      if seats[i].cards == [] {
        return;
      }
      var foe: Option<Seat> := None;
      for j := 0 to |seats|
        invariant foe == None && State() == old(State())
        invariant State().OpponentFrom(i, 0) == State().OpponentFrom(i, j)
      {
        if !(seats[j].uid == seats[i].uid || seats[j].team == seats[i].team || seats[j].Empty()) {
          foe := Some(seats[j]);
          break;
        }
      }
      var view := Ai.Position(if suit == -1 then Ai.Bot else Ai.Player,
                              seats[i].points, if foe.Some? then foe.value.points else 0,
                              seats[i].cards, if foe.Some? then foe.value.cards else [], [], []);
      var lead := if suit == -1 || FirstFilled(table) == NO_CARD then None else Some(FirstFilled(table));
      var card := Ai.FindOptimalCard(Some(BOT_RULES), view, if suit == -1 then pointMode * 3 else pointMode, lead, seats[i].depth);
      if card == NO_CARD {
        card := seats[i].cards[0];
      }
      var _ := HandlePlayCard(seats[i].uid, card, false, now);
    }

    /** Kick everybody registered to leave, every bot and every automatic seat. */
    method UpdateUsersStaying()
      requires Valid()
      requires DistinctUids(seats)
      modifies this
      ensures Valid() && State() == old(State()).LeaveAll(old(leavers) + SelfPlaying(old(seats)))
      ensures DistinctUids(seats)
    {
      ghost var m := State();
      var kick := leavers + SelfPlaying(seats);
      ghost var all: set<int>, gone: set<int> := kick, {};
      LeaveNobody(m);
      while kick != {}
        invariant Valid() && DistinctUids(seats)
        invariant all == kick + gone && kick !! gone
        invariant State() == m.LeaveAll(gone)
        decreases kick
      {
        var uid := PickOne(kick);
        UserLeave(uid);
        LeaveOneMore(m, gone, uid);
        kick, gone := kick - {uid}, gone + {uid};
      }
      assert all == gone;
    }

    method RunTask(task: Task, now: int, shuffled: seq<int>)
      requires Valid() && DistinctUids(seats)
      modifies this, delayedTasks
      ensures Valid() && DistinctUids(seats) && State() == old(State()).RunTask(task, now, shuffled)
    {
      ghost var m := State();
      if !task.KickLeavers? { MatchTheorems.TaskPeople(m, task, now, shuffled); }
      match task
      case AnnounceEnd =>
      case KickLeavers => UpdateUsersStaying();
      case PrepareNext =>
        ledger := ledger.(idleSince := now);
        var full := CheckRoomFull();
        if full {
          PrepareStartGame(now);
        } else {
          phase := Waiting;
        }
      case NewRound => HandleNewRound(now);
      case DealCards => if |shuffled| >= HAND_SIZE * |seats| { this.DealCards(shuffled); }
      case NewHand => HandleNewHand();
      case DrawCards => HandleDrawCard();
    }

    /** Run every task that is due at `now`, also those pushed meanwhile. */
    method RunDueTasks(now: int, shuffled: seq<int>)
      requires Valid() && DistinctUids(seats)
      modifies this, delayedTasks
      ensures Valid() && DistinctUids(seats) && State() == RunDue(old(State()), now, shuffled)
    {
      while delayedTasks.queue.tasks != []
        invariant Valid() && DistinctUids(seats)
        invariant RunDue(State(), now, shuffled) == RunDue(old(State()), now, shuffled)
        decreases delayedTasks.queue.DueCount(now)
      {
        ghost var m := State();
        var due, timed := delayedTasks.PopDue(now);
        if !due {
          return;
        }
        TaskKeepsDue(Popped(m), timed.task, now, shuffled);
        assert State() == Popped(m);
        RunTask(timed.task, now, shuffled);
      }
    }

    /** A seat whose turn timer has run out plays by itself. */
    method SeatLoop(i: nat, tick: Tick)
      requires Valid() && i < |seats| && Real(State())
      modifies this, delayedTasks
      ensures Valid() && State() == old(State()).SeatTurn(i, tick.now, tick.expired) && Real(State())
    {
      SeatTurnReal(State(), i, tick);
      if seats[i].Empty() || !seats[i].onTurn || i !in tick.expired {
        return;
      }
      if seats[i].isBot {
        BotViewSafe(State(), i);
        BotPlayCard(i, tick.now);
      } else {
        AutoPlay(i, tick.now);
      }
    }

    method HasRealPlayers() returns (some: bool)
      ensures some == State().HasRealPlayers()
    {
      for i := 0 to |seats|
        invariant forall j :: 0 <= j < i ==> seats[j].Empty() || seats[j].isBot
      {
        if !seats[i].Empty() && !seats[i].isBot {
          return true;
        }
      }
      return viewers != {};
    }

    method CheckGenBot(tick: Tick)
      requires Valid()
      modifies this
      ensures Valid() && State() == old(State()).GenerateBot(tick)
    {
      var some := HasRealPlayers();
      if !some || !tick.botDue {
        return;
      }
      var full := CheckRoomFull();
      if !full && tick.bot.Some? {
        TryJoin(tick.bot.value, true, tick.botDepth);
      }
    }

    method Turns(tick: Tick)
      requires Valid() && Real(State())
      modifies this, delayedTasks
      ensures Valid() && State() == old(State()).AllTurns(0, tick)
    {
      for i := 0 to playerMode
        invariant Valid() && Real(State())
        invariant State().AllTurns(i, tick) == old(State()).AllTurns(0, tick)
      {
        MatchTheorems.TurnPeople(State(), i, tick);
        SeatLoop(i, tick);
      }
    }

    method LoopTasks(tick: Tick)
      requires Valid() && DistinctUids(seats) && Real(State()) && NO_CARD !in tick.shuffled
      modifies this, delayedTasks
      ensures Valid() && State() == MatchRuns.Loop(old(State()), tick)
    {
      RunDueReal(State(), tick.now, tick.shuffled);
      RunDueTasks(tick.now, tick.shuffled);
      match phase
      case Playing =>
        if tick.now - timeStart > TIME_MATCH_MAXIMUM {
          EndGame(tick.now);
        } else {
          Turns(tick);
        }
      case PreparingStart =>
        if timeStart != -1 && tick.now > timeStart {
          var full := CheckRoomFull();
          if full {
            StartGame(tick.now);
          } else {
            phase, timeStart := Waiting, -1;
          }
        }
      case Waiting =>
        var full := CheckRoomFull();
        if full {
          PrepareStartGame(tick.now);
        } else {
          CheckGenBot(tick);
        }
      case Ended =>
    }

    /** One tick of the server. */
    method Loop(tick: Tick)
      requires Valid() && DistinctUids(seats) && Real(State()) && NO_CARD !in tick.shuffled
      modifies this, delayedTasks
      ensures Valid() && State() == MatchRuns.Loop(old(State()), tick)
      ensures DistinctUids(seats) && Real(State())
    {
      LoopReal(State(), tick);
      LoopDistinct(State(), tick);
      LoopTasks(tick);
    }

    /** `on_received_packet` and the entries the registry uses. */
    method Dispatch(now: int, e: Event)
      requires Valid() && DistinctUids(seats) && Real(State())
      requires e.Elapse? ==> NO_CARD !in e.tick.shuffled
      modifies this, delayedTasks
      ensures Valid() && State() == MatchRuns.Handle(old(State()), now, e)
    {
      match e
      case Join(uid) => TryJoin(uid, false, 1);
      case EnterSeat(uid, seatIdx) => ViewerEnterMatch(uid, seatIdx);
      case LeaveTable(uid, status) => RegisterLeave(uid, status);
      case Drop(uid) => UserDisconnect(uid);
      case Return(uid) => UserReturnToTable(uid);
      case Play(uid, card) => var _ := HandlePlayCard(uid, card, false, now);
      case ClaimNapoli(uid) => HandleNapoli(uid);
      case Elapse(tick) => Loop(tick);
    }

    /** One packet or tick at clock reading `now`: a step of the match, which keeps the match invariant. */
    method Handle(now: int, e: Event)
      requires Valid() && DistinctUids(seats) && Real(State())
      requires e.Elapse? ==> NO_CARD !in e.tick.shuffled
      modifies this, delayedTasks
      ensures Valid() && State() == Step(old(State()), now, e)
      ensures DistinctUids(seats) && Real(State())
      ensures old(MatchTheorems.Inv(State()) && MatchTheorems.Admissible(State(), now, e)) ==> MatchTheorems.Inv(State())
    {
      StepReal(State(), now, e);
      StepDistinct(State(), now, e);
      if MatchTheorems.Inv(State()) && MatchTheorems.Admissible(State(), now, e) {
        MatchTheorems.StepKeepsInv(State(), now, e);
      }
      ledger := ledger.(clock := now);
      Dispatch(now, e);
    }
  }
}
