/**
 Points. In every reachable state of a round the points gained since the round began are the
 values of the cards won, three thirds per napoli set, and three once the last trick is paid;
 a full round adds exactly 35 thirds plus napoli. Rounds are therefore bounded, provided every
 seat still has its team.
 */
module MatchScores {
  import opened TressetteCards
  import opened DelayedTasks
  import opened TressetteMatch
  import opened MatchRuns
  import opened MatchCards
  import opened MatchShape
  import opened MatchRounds

  /** The least a round adds, after the next trim. */
  function RoundGain(n: nat): int {
    if n == SOLO then 31 else 27
  }

  function RoundsGain(n: nat, k: int): int {
    if n == SOLO then 31 * k else 27 * k
  }

  ghost predicate Scores(m: Match) {
    && SumPoints(m.seats) == m.ledger.base + ValueOf(m.ledger.won) + 3 * m.ledger.napoliSets + (if m.ledger.lastTrickPaid then 3 else 0)
    && (forall i :: 0 <= i < |m.seats| ==> m.seats[i].points >= 0)
    && (m.curRound >= 1 ==> m.ledger.base >= RoundsGain(m.playerMode, m.curRound - 1))
    && m.ledger.base >= 0
  }

  // ----- a full round -----

  lemma {:induction false} EmptyHands(seats: seq<Seat>, c: int)
    requires forall i :: 0 <= i < |seats| ==> seats[i].cards == []
    ensures HandCopies(seats, c) == 0
  {
    if seats != [] { EmptyHands(seats[..|seats| - 1], c); }
  }

  /** When a round is over every card has been won exactly once. */
  lemma AllWon(m: Match)
    requires Seated(m) && RoundOver(m)
    ensures Shuffled(m.ledger.won) && ValueOf(m.ledger.won) == 32
  {
    ShuffledDeck(FULL_DECK);
    forall c ensures multiset(m.ledger.won)[c] == multiset(FULL_DECK)[c] {
      EmptyHands(m.seats, c);
      if c == NO_CARD {
        assert c !in m.ledger.won;
      } else {
        assert c !in m.table;
        assert Copies(m, c) == if IsCard(c) then 1 else 0;
      }
    }
    FullDeckValue();
    ValueOfPermutation(m.ledger.won, FULL_DECK);
  }

  /** A full round adds exactly 35 thirds, plus three for each napoli set claimed. */
  lemma FullRoundValue(m: Match)
    requires Shape(m) && RoundOver(m) && Scores(m)
    ensures SumPoints(m.seats) == m.ledger.base + 35 + 3 * m.ledger.napoliSets
  {
    AllWon(m);
  }

  // ----- handlers keep the account -----

  lemma SameScores(m: Match, m': Match)
    requires Scores(m) && |m'.seats| == |m.seats| && forall i :: 0 <= i < |m.seats| ==> m'.seats[i].points == m.seats[i].points
    requires m'.ledger.(clock := 0, endedAt := 0, overwritten := [], early := false)
             == m.ledger.(clock := 0, endedAt := 0, overwritten := [], early := false)
    requires m'.curRound == m.curRound && m'.playerMode == m.playerMode
    ensures Scores(m')
  {
    SamePoints(m.seats, m'.seats);
  }

  lemma PaidScores(m: Match, winner: int)
    requires Scores(m) && 0 <= winner < |m.seats| && !m.ledger.lastTrickPaid
    ensures Scores(m.Paid(winner))
  {
    ValueOfConcat(m.ledger.won, m.table);
    PointsUpdated(m.seats, winner, m.Paid(winner).seats[winner]);
  }

  lemma EndHandScores(m: Match, now: int)
    requires Scores(m) && !m.ledger.lastTrickPaid
    ensures Scores(m.EndHand(now))
  {
    var winner := SlotOf(m.table, BestOfSuit(m.table, m.suit, |m.table|));
    if 0 <= winner < |m.seats| {
      PaidScores(m, winner);
      var endRound := m.deck == [] && m.seats[0].cards == [];
      AfterHandSameCards(m.Paid(winner), now, endRound);
      SameScores(m.Paid(winner), m.Paid(winner).AfterHand(now, endRound));
    }
  }

  lemma AcceptScores(m: Match, i: int, card: int, now: int)
    requires Scores(m) && 0 <= i < |m.seats| == |m.table| && !m.ledger.lastTrickPaid
    ensures Scores(m.Accept(i, card, now))
  {
    var placed := m.Placed(i, card);
    SameScores(m, placed);
    if NO_CARD !in placed.table {
      EndHandScores(placed.(turn := -1), now);
    } else {
      SameScores(placed, placed.PassTurn());
    }
  }

  lemma PlayScores(m: Match, uid: int, card: int, isAuto: bool, now: int)
    requires Shape(m) && Scores(m) && !TooEarly(m, uid, card)
    ensures Scores(m.PlayCard(uid, card, isAuto, now).0)
  {
    var (m', reply) := m.PlayCard(uid, card, isAuto, now);
    if !reply.Ignored? {
      SameScores(m, m.Held(m.FindPlayer(uid), isAuto));
      if reply.Accepted? {
        TooEarlyIsAccepted(m, uid, card, isAuto, now);
        PlayNeedsTrick(m, uid, card, isAuto, now);
        AcceptScores(m.Held(m.FindPlayer(uid), isAuto), m.FindPlayer(uid), card, now);
      }
    }
  }

  lemma NapoliScores(m: Match, uid: int)
    requires Scores(m)
    ensures Scores(m.Napoli(uid))
  {
    var i := SeatWithUid(m.seats, uid);
    if i >= 0 { PointsUpdated(m.seats, i, m.seats[i].(points := m.seats[i].points + 3 * NapoliSets(m.seats[i].cards))); }
  }

  lemma {:induction false} TrimLoss(a: seq<Seat>, b: seq<Seat>)
    requires |a| == |b| && forall i :: 0 <= i < |a| ==> a[i].points >= 0 && a[i].points - 2 <= b[i].points
    ensures SumPoints(b) >= SumPoints(a) - 2 * |a|
  {
    if a != [] { TrimLoss(a[..|a| - 1], b[..|b| - 1]); }
  }

  lemma {:induction false} PointsSumUp(seats: seq<Seat>)
    requires forall i :: 0 <= i < |seats| ==> seats[i].points >= 0
    ensures SumPoints(seats) >= 0
  {
    if seats != [] { PointsSumUp(seats[..|seats| - 1]); }
  }

  /** Before the next trim the points are at least what the completed rounds have added. */
  lemma RoundAdds(m: Match)
    requires Seated(m) && Scores(m) && RoundOver(m)
    ensures SumPoints(m.seats) - 2 * |m.seats| >= RoundsGain(m.playerMode, m.curRound)
  {
    AllWon(m);
  }

  /** Beginning a round trims at most two thirds per seat from what the last round added. */
  lemma StartRoundScores(m: Match, now: int)
    requires Seated(m) && Scores(m) && (RoundOver(m) || GameOpening(m))
    ensures Scores(m.StartRound(now))
  {
    var trimmed := Trimmed(m.seats, m.playerMode);
    TrimLoss(m.seats, trimmed);
    PointsSumUp(trimmed);
    if RoundOver(m) { RoundAdds(m); }
    assert Scores(m.NextRound());
    SameScores(m.NextRound(), m.StartRound(now));
  }

  lemma {:induction false} DrawFromPoints(seats: seq<Seat>, deck: seq<int>, i: nat)
    requires i <= |seats|
    ensures var s := DrawFrom(seats, deck, i).0; forall k :: 0 <= k < |seats| ==> s[k].points == seats[k].points
    decreases |seats| - i
  {
    if i < |seats| && deck != [] {
      var n := |deck| - 1;
      DrawFromPoints(seats[i := seats[i].(cards := seats[i].cards + [deck[n]])], deck[..n], i + 1);
    }
  }

  /** Within a round no task pays anybody. */
  lemma TaskSamePoints(m: Match, task: Task, now: int, shuffled: seq<int>)
    requires OfPlay(task) && !task.NewRound?
    ensures var m' := m.RunTask(task, now, shuffled);
            && m'.ledger == m.ledger && m'.curRound == m.curRound && m'.playerMode == m.playerMode
            && |m'.seats| == |m.seats| && forall i :: 0 <= i < |m.seats| ==> m'.seats[i].points == m.seats[i].points
  {
    DrawFromPoints(m.seats, m.deck, 0);
  }

  lemma TaskScores(m: Match, now: int, shuffled: seq<int>)
    requires Shape(m) && Scores(m) && m.queue.HasDue(now)
    ensures Scores(Popped(m).RunTask(m.queue.tasks[0].task, now, shuffled))
  {
    var left := Popped(m);
    var task := m.queue.tasks[0].task;
    SameScores(m, left);
    if task.NewRound? {
      SameQuietStage(m, left);
      StartRoundScores(left, now);
    } else {
      TaskSamePoints(left, task, now, shuffled);
      SameScores(left, left.RunTask(task, now, shuffled));
    }
  }

  lemma SeatTurnScores(m: Match, i: nat, now: int, expired: set<int>)
    requires Shape(m) && Scores(m) && i < |m.seats|
    ensures Scores(m.SeatTurn(i, now, expired))
  {
    if m.seats[i].Empty() || !m.seats[i].onTurn || i !in expired {
    } else if m.seats[i].isBot {
      if m.seats[i].cards != [] { PlayScores(m, m.seats[i].uid, m.BotCard(i), false, now); }
    } else {
      var auto := m.(seats := m.seats[i := m.seats[i].(isAuto := true)]);
      SameInTrick(m, auto);
      SameScores(m, auto);
      if m.seats[i].cards != [] { PlayScores(auto, m.seats[i].uid, FirstOfSuit(m.seats[i].cards, m.suit), true, now); }
    }
  }

  lemma {:induction false} EndedTurns(m: Match, i: nat, tick: Tick)
    requires i <= |m.seats| && m.phase.Ended?
    ensures m.AllTurns(i, tick).phase.Ended?
    decreases |m.seats| - i
  {
    if i < |m.seats| {
      TurnWhenEnded(m, i, tick);
      var m' := m.SeatTurn(i, tick.now, tick.expired);
      if |m'.seats| == |m.seats| { EndedTurns(m', i + 1, tick); }
    }
  }

  lemma {:induction false} TurnsScores(m: Match, i: nat, tick: Tick)
    requires i <= |m.seats| && Scores(m) && (m.phase.Ended? || Shape(m))
    ensures m.AllTurns(i, tick).phase.Playing? ==> Scores(m.AllTurns(i, tick))
    decreases |m.seats| - i
  {
    if i < |m.seats| {
      var m' := m.SeatTurn(i, tick.now, tick.expired);
      if m.phase.Ended? {
        TurnWhenEnded(m, i, tick);
        EndedTurns(m, i, tick);
      } else {
        SeatTurnKeepsShape(m, i, tick.now, tick.expired);
        SeatTurnScores(m, i, tick.now, tick.expired);
        if |m'.seats| == |m.seats| { TurnsScores(m', i + 1, tick); }
      }
    }
  }

  // ----- bounded rounds -----

  /** Every seat plays for one of the two teams. */
  ghost predicate TeamsIntact(m: Match) {
    forall i :: 0 <= i < |m.seats| ==> m.seats[i].team == 0 || m.seats[i].team == 1
  }

  lemma {:induction false} TeamsSumUp(seats: seq<Seat>)
    requires forall i :: 0 <= i < |seats| ==> seats[i].team == 0 || seats[i].team == 1
    ensures SumPoints(seats) == TeamScore(seats, 0) + TeamScore(seats, 1)
  {
    if seats != [] { TeamsSumUp(seats[..|seats| - 1]); }
  }

  /**
   With every seat on a team, `k` rounds completed without reaching the target are few:
   31k + 4 <= 2(target - 1) with two seats, 27k + 8 <= 2(target - 1) with four.
   */
  lemma RoundsAreBounded(m: Match)
    requires Shape(m) && RoundOver(m) && Scores(m) && TeamsIntact(m)
    ensures RoundsGain(m.playerMode, m.curRound) + (35 - RoundGain(m.playerMode)) <= 2 * (m.PointToWin() - 1)
    ensures m.playerMode == SOLO && m.pointMode == 11 ==> m.curRound <= 1
    ensures m.playerMode == SOLO && m.pointMode == 21 ==> m.curRound <= 3
    ensures m.playerMode == DUO && m.pointMode == 21 ==> m.curRound <= 4
  {
    FullRoundValue(m);
    TeamsSumUp(m.seats);
  }

  lemma LeaveOne(m: Match, uid: int)
    requires m.HasUser(uid)
    ensures m.UserLeave(uid).seats == Vacate(m.seats, {uid})
  {
    var left := m.UserLeave(uid);
    assert uid in m.Here({uid});
    forall i | 0 <= i < |m.seats| ensures left.seats[i] == Vacate(m.seats, {uid})[i] {
    }
  }

  /** A vacated seat has lost its team, and joining it does not bring the team back. */
  lemma TeamIsLost(m: Match, uid: int, other: int, isBot: bool, depth: int)
    requires Seating(m) && m.IsPlayer(uid) && other > NO_WINNER && !m.IsPlayer(other) && Full(m.seats)
    ensures var i := m.FindPlayer(uid); var m' := m.UserLeave(uid).TryJoin(other, isBot, depth);
            m'.FindPlayer(other) == i && m'.seats[i].team == NO_TEAM && !TeamsIntact(m')
  {
    var i := m.FindPlayer(uid);
    LeaveOne(m, uid);
    var left := m.UserLeave(uid);
    forall j | 0 <= j < |m.seats| && j != i ensures left.seats[j] == m.seats[j] {
      if j < i { assert m.seats[j].uid != m.seats[i].uid; } else { assert m.seats[i].uid != m.seats[j].uid; }
    }
    SeatMissing(m.seats, other);
    SeatMissing(left.seats, other);
    assert left.seats[i] == VACANT;
    SeatFound(left.seats, i);
    assert FirstVacant(left.seats) == i;
    var joined := left.TryJoin(other, isBot, depth);
    assert joined.seats == left.seats[i := left.seats[i].(uid := other, isBot := isBot, depth := if isBot then depth else 1)];
    SeatFound(joined.seats, i);
  }

  // ----- exactly when points force an end -----

  function WithPoints(seats: seq<Seat>, points: seq<nat>): (r: seq<Seat>)
    requires |points| == |seats|
    ensures |r| == |seats| && forall i :: 0 <= i < |seats| ==> r[i] == seats[i].(points := points[i])
  {
    seq(|seats|, i requires 0 <= i < |seats| => seats[i].(points := points[i]))
  }

  /** Any points adding up to twice the target less one end the game. */
  ghost predicate PointsForceAnEnd(m: Match) {
    forall points: seq<nat> ::
      |points| == |m.seats| && SumPoints(WithPoints(m.seats, points)) >= 2 * m.PointToWin() - 1 ==>
        m.(seats := WithPoints(m.seats, points)).ReachedTarget()
  }

  lemma {:induction false} OthersDoNotCount(seats: seq<Seat>, team: int)
    requires forall i :: 0 <= i < |seats| ==> seats[i].team != team || seats[i].points == 0
    ensures TeamScore(seats, team) == 0
  {
    if seats != [] { OthersDoNotCount(seats[..|seats| - 1], team); }
  }

  lemma {:induction false} NobodyScores(seats: seq<Seat>)
    requires forall j :: 0 <= j < |seats| ==> seats[j].points == 0
    ensures SumPoints(seats) == 0
  {
    if seats != [] { NobodyScores(seats[..|seats| - 1]); }
  }

  lemma {:induction false} OneSeatScores(seats: seq<Seat>, i: nat)
    requires i < |seats| && forall j :: 0 <= j < |seats| && j != i ==> seats[j].points == 0
    ensures SumPoints(seats) == seats[i].points
  {
    var n := |seats| - 1;
    if i < n {
      OneSeatScores(seats[..n], i);
    } else {
      NobodyScores(seats[..n]);
    }
  }

  /** Points force an end exactly when every seat has its team: a teamless seat can collect without limit. */
  lemma EndIsForcedIffTeamsIntact(m: Match)
    requires m.pointMode > 0
    requires forall i :: 0 <= i < |m.seats| ==> m.seats[i].team == NO_TEAM || m.seats[i].team == 0 || m.seats[i].team == 1
    ensures PointsForceAnEnd(m) <==> TeamsIntact(m)
  {
    if TeamsIntact(m) {
      forall points: seq<nat> | |points| == |m.seats| && SumPoints(WithPoints(m.seats, points)) >= 2 * m.PointToWin() - 1
        ensures m.(seats := WithPoints(m.seats, points)).ReachedTarget()
      {
        TeamsSumUp(WithPoints(m.seats, points));
      }
    } else {
      var i :| 0 <= i < |m.seats| && m.seats[i].team == NO_TEAM;
      var points: seq<nat> := seq(|m.seats|, j => if j == i then 2 * m.PointToWin() else 0);
      var rich := WithPoints(m.seats, points);
      OneSeatScores(rich, i);
      OthersDoNotCount(rich, 0);
      OthersDoNotCount(rich, 1);
      assert !m.(seats := rich).ReachedTarget();
    }
  }
}
