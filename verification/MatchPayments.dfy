/**
 Who is paid, told by cards and seats alone. In a game points move in three ways only: a complete trick
 pays the seat that played its strongest card of the suit led, a napoli claim pays the claimant for
 each suit whose ace, two and three it holds, and a new round drops the thirds that make no whole point.
 */
module MatchPayments {
  import opened Options
  import opened TressetteCards
  import opened DelayedTasks
  import opened TressetteMatch
  import opened MatchRuns
  import opened MatchCards
  import opened MatchShape
  import opened MatchRounds
  import opened MatchScores
  import opened MatchTheorems
  import opened MatchVictory

  /** Nobody gains, nothing is won, the same people sit where they sat. */
  ghost predicate Still(m: Match, m': Match) {
    && m'.ledger.won == m.ledger.won && m'.lastWon == m.lastWon && m'.curRound == m.curRound && m'.napoli == m.napoli
    && |m'.seats| == |m.seats|
    && forall k :: 0 <= k < |m.seats| ==>
         && m'.seats[k].points == m.seats[k].points && m'.seats[k].lastTrick == m.seats[k].lastTrick
         && m'.seats[k].uid == m.seats[k].uid
  }

  lemma SameLeader(m: Match, m': Match)
    requires Still(m, m')
    ensures m'.Leader() == m.Leader()
  {
    SameSeatOf(m.seats, m'.seats, m.lastWon);
  }

  // ----- a trick -----

  /** The cards of a trick by seat; seat `w` played the strongest card of the suit the leader led. */
  ghost predicate Takes(trick: seq<int>, leader: int, w: nat) {
    && AreCards(trick) && 0 <= leader < |trick| && w < |trick|
    && StrongestOfSuit(trick, Suit(trick[leader]), trick[w])
  }

  /** Seat `w` takes the trick: its worth, and three thirds more with the last of the forty cards. */
  ghost predicate PaidTo(m: Match, m': Match, trick: seq<int>, w: nat) {
    && |trick| == |m.seats| == |m'.seats| && Takes(trick, m.Leader(), w) && w < |m.seats|
    && m'.ledger.won == m.ledger.won + trick && m'.lastWon == m.seats[w].uid
    && m'.curRound == m.curRound && m'.napoli == m.napoli
    && forall k :: 0 <= k < |m.seats| ==>
         && m'.seats[k].uid == m.seats[k].uid
         && m'.seats[k].points == m.seats[k].points
              + (if k == w then ValueOf(trick) + (if |m'.ledger.won| == 40 then 3 else 0) else 0)
         && m'.seats[k].lastTrick == m.seats[k].lastTrick + if k == w && |m'.ledger.won| == 40 then 3 else 0
  }

  ghost predicate TrickPaid(m: Match, m': Match) {
    exists trick, w :: PaidTo(m, m', trick, w)
  }

  lemma StillThenPaid(m: Match, m': Match, m'': Match)
    requires Still(m, m') && TrickPaid(m', m'')
    ensures TrickPaid(m, m'')
  {
    SameLeader(m, m');
    var trick, w :| PaidTo(m', m'', trick, w);
    assert PaidTo(m, m'', trick, w);
  }

  lemma PaidThenStill(m: Match, m': Match, m'': Match)
    requires TrickPaid(m, m') && Still(m', m'')
    ensures TrickPaid(m, m'')
  {
    var trick, w :| PaidTo(m, m', trick, w);
    assert PaidTo(m, m'', trick, w);
  }

  lemma AfterHandIsStill(m: Match, now: int, endRound: bool)
    ensures Still(m, m.AfterHand(now, endRound))
  {
  }

  ghost predicate NobodyOnTurn(m: Match) {
    forall k :: 0 <= k < |m.seats| ==> !m.seats[k].onTurn
  }

  lemma WinnerIsPaid(m: Match, w: nat)
    requires Seated(m) && Complete(m) && w == SlotOf(m.table, BestOfSuit(m.table, m.suit, |m.table|)) < |m.seats|
    ensures PaidTo(m, m.Paid(w), m.table, w) && NobodyOnTurn(m.Paid(w))
  {
    WinnerExists(m);
    PaidIsSettled(m, w);
  }

  /** A complete trick pays the seat with the strongest card of the suit led, and no other. */
  lemma HandPaysStrongest(m: Match, now: int)
    requires Seated(m) && Complete(m)
    ensures TrickPaid(m, m.EndHand(now)) && NobodyOnTurn(m.EndHand(now))
  {
    WinnerExists(m);
    var w := SlotOf(m.table, BestOfSuit(m.table, m.suit, |m.table|));
    WinnerIsPaid(m, w);
    AfterHandIsStill(m.Paid(w), now, m.deck == [] && m.seats[0].cards == []);
    PaidThenStill(m, m.Paid(w), m.EndHand(now));
  }

  /** Points stay, or a trick is paid and nobody is on turn any more. */
  ghost predicate StillOrPaid(m: Match, m': Match) {
    (Still(m, m') && m'.phase == m.phase) || (TrickPaid(m, m') && NobodyOnTurn(m'))
  }

  lemma StillThen(m: Match, m': Match, m'': Match)
    requires Still(m, m') && m'.phase == m.phase && StillOrPaid(m', m'')
    ensures StillOrPaid(m, m'')
  {
    if TrickPaid(m', m'') { StillThenPaid(m, m', m''); }
  }

  lemma PlacedIsStill(m: Match, card: int)
    requires 0 <= m.turn < |m.seats| == |m.table|
    ensures Still(m, m.Placed(m.turn, card)) && Still(m, m.Placed(m.turn, card).(turn := -1))
    ensures Still(m, m.Placed(m.turn, card).PassTurn()) && m.Placed(m.turn, card).PassTurn().phase == m.phase
  {
  }

  lemma AcceptPays(m: Match, card: int, now: int)
    requires Seated(m) && InTrick(m) && card in m.seats[m.turn].cards
    ensures StillOrPaid(m, m.Accept(m.turn, card, now))
  {
    PlacedIsStill(m, card);
    if NO_CARD !in m.Placed(m.turn, card).table {
      PlacedComplete(m, card);
      var full := m.Placed(m.turn, card).(turn := -1);
      HandPaysStrongest(full, now);
      StillThenPaid(m, full, full.EndHand(now));
    }
  }

  lemma HeldIsStill(m: Match, i: nat, isAuto: bool)
    requires i < |m.seats|
    ensures Still(m, m.Held(i, isAuto)) && m.Held(i, isAuto).phase == m.phase
  {
  }

  lemma AcceptedPays(m: Match, uid: int, card: int, isAuto: bool, now: int)
    requires Shape(m) && !TooEarly(m, uid, card) && m.PlayCard(uid, card, isAuto, now).1.Accepted?
    ensures var i := m.FindPlayer(uid);
            && 0 <= i == m.turn < |m.seats| == |m.table| && StillOrPaid(m, m.Held(i, isAuto).Accept(i, card, now))
  {
    var i := m.FindPlayer(uid);
    TooEarlyIsAccepted(m, uid, card, isAuto, now);
    PlayNeedsTrick(m, uid, card, isAuto, now);
    HeldInTrick(m, i, isAuto);
    AcceptPays(m.Held(i, isAuto), card, now);
    HeldIsStill(m, i, isAuto);
    StillThen(m, m.Held(i, isAuto), m.Held(i, isAuto).Accept(i, card, now));
  }

  lemma PlayPays(m: Match, uid: int, card: int, isAuto: bool, now: int)
    requires Shape(m) && !TooEarly(m, uid, card)
    ensures StillOrPaid(m, m.PlayCard(uid, card, isAuto, now).0)
  {
    var (m', reply) := m.PlayCard(uid, card, isAuto, now);
    if reply.Accepted? {
      AcceptedPays(m, uid, card, isAuto, now);
    } else if !reply.Ignored? {
      HeldIsStill(m, m.FindPlayer(uid), isAuto);
    }
  }

  lemma BotPays(m: Match, i: nat, now: int)
    requires Shape(m) && i < |m.seats| && m.seats[i].onTurn
    ensures StillOrPaid(m, m.BotPlay(i, now))
  {
    if m.seats[i].cards != [] { PlayPays(m, m.seats[i].uid, m.BotCard(i), false, now); }
  }

  lemma AutoIsStill(m: Match, i: nat)
    requires i < |m.seats|
    ensures var auto := m.(seats := m.seats[i := m.seats[i].(isAuto := true)]); Still(m, auto) && auto.phase == m.phase
  {
  }

  lemma AutoPays(m: Match, i: nat, now: int)
    requires Shape(m) && i < |m.seats| && m.seats[i].onTurn
    ensures StillOrPaid(m, m.AutoPlay(i, now))
  {
    var auto := m.(seats := m.seats[i := m.seats[i].(isAuto := true)]);
    AutoIsStill(m, i);
    SameInTrick(m, auto);
    if m.seats[i].cards != [] {
      PlayPays(auto, m.seats[i].uid, FirstOfSuit(m.seats[i].cards, m.suit), true, now);
      StillThen(m, auto, m.AutoPlay(i, now));
    }
  }

  lemma TurnPays(m: Match, i: nat, tick: Tick)
    requires Shape(m) && i < |m.seats|
    ensures StillOrPaid(m, m.SeatTurn(i, tick.now, tick.expired))
  {
    if m.seats[i].onTurn {
      BotPays(m, i, tick.now);
      AutoPays(m, i, tick.now);
    }
  }

  lemma {:induction false} NobodysTurns(m: Match, i: nat, tick: Tick)
    requires NobodyOnTurn(m) && i <= |m.seats|
    ensures m.AllTurns(i, tick) == m
    decreases |m.seats| - i
  {
    if i < |m.seats| { NobodysTurns(m, i + 1, tick); }
  }

  lemma {:induction false} TurnsPay(m: Match, i: nat, tick: Tick)
    requires Shape(m) && i <= |m.seats|
    ensures StillOrPaid(m, m.AllTurns(i, tick))
    decreases |m.seats| - i
  {
    if i < |m.seats| {
      var m' := m.SeatTurn(i, tick.now, tick.expired);
      TurnPays(m, i, tick);
      SeatTurnKeepsShape(m, i, tick.now, tick.expired);
      if NobodyOnTurn(m') {
        NobodysTurns(m', i + 1, tick);
      } else {
        TurnsPay(m', i + 1, tick);
        StillThen(m, m', m'.AllTurns(i + 1, tick));
      }
    }
  }

  // ----- a napoli claim -----

  /** The hand holds the card of this rank and suit. */
  predicate HoldsRank(hand: seq<int>, suit: int, rank: int) {
    exists c :: c in hand && IsCard(c) && Suit(c) == suit && RankOf(c) == rank
  }

  /** Ace, two and three of one suit. */
  predicate HoldsNapoli(hand: seq<int>, suit: int) {
    HoldsRank(hand, suit, 1) && HoldsRank(hand, suit, 2) && HoldsRank(hand, suit, 3)
  }

  function Count(b: bool): nat {
    if b then 1 else 0
  }

  function NapoliSuits(hand: seq<int>): nat {
    Count(HoldsNapoli(hand, 0)) + Count(HoldsNapoli(hand, 1)) + Count(HoldsNapoli(hand, 2)) + Count(HoldsNapoli(hand, 3))
  }

  lemma RankIsCard(hand: seq<int>, suit: nat, rank: nat)
    requires suit < 4 && 1 <= rank <= 10
    ensures HoldsRank(hand, suit, rank) <==> suit + 4 * (rank - 1) in hand
  {
    var card := suit + 4 * (rank - 1);
    assert IsCard(card) && Suit(card) == suit && RankOf(card) == rank;
    forall c | IsCard(c) && Suit(c) == suit && RankOf(c) == rank ensures c == card {
    }
  }

  lemma NapoliIsRanks(hand: seq<int>)
    ensures NapoliSets(hand) == NapoliSuits(hand)
  {
    RankIsCard(hand, 0, 1); RankIsCard(hand, 0, 2); RankIsCard(hand, 0, 3);
    RankIsCard(hand, 1, 1); RankIsCard(hand, 1, 2); RankIsCard(hand, 1, 3);
    RankIsCard(hand, 2, 1); RankIsCard(hand, 2, 2); RankIsCard(hand, 2, 3);
    RankIsCard(hand, 3, 1); RankIsCard(hand, 3, 2); RankIsCard(hand, 3, 3);
  }

  /** The claimant in seat `i` gets a whole point per suit, the first time in the round, and nobody else anything. */
  ghost predicate ClaimPaid(m: Match, m': Match, uid: int, i: nat) {
    && i < |m.seats| == |m'.seats| && m.seats[i].uid == uid && uid !in m.napoli && m'.napoli == m.napoli + {uid}
    && NapoliSuits(m.seats[i].cards) > 0
    && m'.ledger.won == m.ledger.won && m'.lastWon == m.lastWon && m'.curRound == m.curRound
    && forall k :: 0 <= k < |m.seats| ==>
         && m'.seats[k].uid == m.seats[k].uid
         && m'.seats[k].points == m.seats[k].points + if k == i then 3 * NapoliSuits(m.seats[i].cards) else 0
  }

  ghost predicate NapoliPaid(m: Match, m': Match, uid: int) {
    exists i :: ClaimPaid(m, m', uid, i)
  }

  /** A claim changes something exactly when a seated user who has not claimed this round holds a napoli. */
  lemma NapoliPays(m: Match, uid: int)
    requires Seated(m)
    ensures NapoliPaid(m, m.Napoli(uid), uid) || m.Napoli(uid) == m
    ensures forall i :: 0 <= i < |m.seats| && m.seats[i].uid == uid && uid !in m.napoli && NapoliSuits(m.seats[i].cards) > 0 ==>
              ClaimPaid(m, m.Napoli(uid), uid, i)
  {
    forall i | 0 <= i < |m.seats| && m.seats[i].uid == uid ensures SeatWithUid(m.seats, uid) == i {
      SeatFound(m.seats, i);
    }
    var i := SeatWithUid(m.seats, uid);
    if i >= 0 {
      NapoliIsRanks(m.seats[i].cards);
      if m.Napoli(uid) != m { assert ClaimPaid(m, m.Napoli(uid), uid, i); }
    }
  }

  // ----- a new round -----

  /** Less than a whole point is dropped, and what is left is whole points. */
  predicate DropsThirds(before: int, after: int) {
    after % 3 == 0 && 0 <= before - after < 3
  }

  /**
   At a table for two every seat is left with whole points; at one for four every team is, and a team
   that has whole points already loses nothing.
   */
  ghost predicate WholePoints(a: seq<Seat>, b: seq<Seat>) {
    && |a| == |b| && (|a| == SOLO || |a| == DUO)
    && (|a| == SOLO ==> forall k :: 0 <= k < |a| ==> DropsThirds(a[k].points, b[k].points))
    && (|a| == DUO ==>
          && TeamPoints(b, 0) % 3 == 0 && TeamPoints(b, 1) % 3 == 0
          && forall k :: 0 <= k < |a| ==>
               if (a[k].team == 0 || a[k].team == 1) && TeamPoints(a, a[k].team) % 3 != 0 then DropsThirds(a[k].points, b[k].points)
               else b[k].points == a[k].points)
  }

  lemma {:induction false} OccupiedIsTeam(seats: seq<Seat>, team: int)
    requires Full(seats)
    ensures OccupiedTeamScore(seats, team) == TeamScore(seats, team)
  {
    if seats != [] { OccupiedIsTeam(seats[..|seats| - 1], team); }
  }

  lemma TrimDrops(points: int)
    ensures DropsThirds(points, Trim(points))
  {
  }

  /** A team's seats dropped less than a whole point each if its sum was no whole number, and nothing otherwise. */
  ghost predicate TeamDrops(a: seq<Seat>, b: seq<Seat>, team: int)
    requires |a| == |b| == DUO
  {
    forall k :: 0 <= k < DUO && a[k].team == team ==>
      if TeamPoints(a, team) % 3 != 0 then DropsThirds(a[k].points, b[k].points) else b[k].points == a[k].points
  }

  /** The same but for the points of a team's seats. */
  ghost predicate OnlyTeam(a: seq<Seat>, b: seq<Seat>, team: int) {
    && |a| == |b| == DUO && Full(b)
    && forall k :: 0 <= k < DUO ==> b[k].team == a[k].team && (a[k].team != team ==> b[k] == a[k])
  }

  /** The points of one team as the code trims them. */
  function TeamTrim(a: seq<Seat>, team: int): seq<Seat> {
    if OccupiedTeamScore(a, team) % 3 > 0 then TrimSeats(a, {team}) else a
  }

  lemma FourThirds(a: int, b: int, c: int, d: int)
    requires a % 3 == 0 && b % 3 == 0 && c % 3 == 0 && d % 3 == 0
    ensures (a + b + c + d) % 3 == 0
  {
  }

  lemma SeatIsWhole(s: Seat, team: int)
    ensures PointsFor(s.(points := Trim(s.points)), team) % 3 == 0 && (s.team != team ==> PointsFor(s, team) == 0)
  {
    TrimDrops(s.points);
  }

  /** Trimmed or whole already. */
  lemma TrimmedTeamIsWhole(a: seq<Seat>, team: int)
    requires |a| == DUO && Full(a)
    ensures TeamPoints(TrimSeats(a, {team}), team) % 3 == 0
  {
    var b := TrimSeats(a, {team});
    forall k | 0 <= k < DUO ensures PointsFor(b[k], team) % 3 == 0 {
      SeatIsWhole(a[k], team);
    }
    FourThirds(PointsFor(b[0], team), PointsFor(b[1], team), PointsFor(b[2], team), PointsFor(b[3], team));
  }

  lemma TrimmedTeamDrops(a: seq<Seat>, team: int)
    requires |a| == DUO && Full(a)
    ensures OnlyTeam(a, TrimSeats(a, {team}), team)
    ensures forall k :: 0 <= k < DUO && a[k].team == team ==> DropsThirds(a[k].points, TrimSeats(a, {team})[k].points)
  {
    forall k | 0 <= k < DUO ensures DropsThirds(a[k].points, Trim(a[k].points)) {
      TrimDrops(a[k].points);
    }
  }

  lemma TeamIsTrimmed(a: seq<Seat>, team: int)
    requires |a| == DUO && Full(a)
    ensures var b := TeamTrim(a, team);
            OnlyTeam(a, b, team) && TeamDrops(a, b, team) && TeamPoints(b, team) % 3 == 0
  {
    OccupiedIsTeam(a, team);
    TeamScoreIsPoints(a, team);
    if TeamPoints(a, team) % 3 != 0 {
      TrimmedTeamIsWhole(a, team);
      TrimmedTeamDrops(a, team);
    }
  }

  lemma OtherTeamStays(a: seq<Seat>, b: seq<Seat>, team: int, other: int)
    requires OnlyTeam(a, b, team) && other != team
    ensures TeamPoints(b, other) == TeamPoints(a, other)
  {
    assert forall k :: 0 <= k < DUO ==> PointsFor(b[k], other) == PointsFor(a[k], other);
  }

  lemma FourAreWhole(seats: seq<Seat>)
    requires |seats| == DUO && Full(seats)
    ensures WholePoints(seats, Trimmed(seats, DUO))
  {
    var one := TeamTrim(seats, 0);
    var two := TeamTrim(one, 1);
    TeamIsTrimmed(seats, 0);
    TeamIsTrimmed(one, 1);
    OtherTeamStays(seats, one, 0, 1);
    OtherTeamStays(one, two, 1, 0);
  }

  lemma TrimmedIsWhole(seats: seq<Seat>, playerMode: nat)
    requires Full(seats) && |seats| == playerMode && (playerMode == SOLO || playerMode == DUO)
    ensures WholePoints(seats, Trimmed(seats, playerMode))
  {
    if playerMode == SOLO {
      forall k | 0 <= k < |seats| ensures DropsThirds(seats[k].points, Trim(seats[k].points)) {
        TrimDrops(seats[k].points);
      }
    } else {
      FourAreWhole(seats);
    }
  }

  /** The next round begins: points are whole, nothing is won yet, and everybody may claim again. */
  ghost predicate RoundBegun(m: Match, m': Match) {
    && WholePoints(m.seats, m'.seats) && m'.curRound == m.curRound + 1 && m'.ledger.won == [] && m'.napoli == {}
    && m'.lastWon == m.lastWon
    && forall k :: 0 <= k < |m.seats| ==> m'.seats[k].uid == m.seats[k].uid && m'.seats[k].team == m.seats[k].team
  }

  lemma StartBeginsRound(m: Match, now: int)
    requires Seated(m)
    ensures RoundBegun(m, m.StartRound(now))
  {
    TrimmedIsWhole(m.seats, m.playerMode);
  }

  // ----- every step of a game -----

  /** How points move. */
  ghost predicate Accounted(m: Match, m': Match, e: Event) {
    || Still(m, m') || TrickPaid(m, m')
    || (e.ClaimNapoli? && NapoliPaid(m, m', e.uid)) || (e.Elapse? && RoundBegun(m, m'))
  }

  lemma {:induction false} DrawStaysStill(seats: seq<Seat>, deck: seq<int>, i: nat)
    requires i <= |seats|
    ensures var s := DrawFrom(seats, deck, i).0;
            forall k :: 0 <= k < |seats| ==>
              s[k].points == seats[k].points && s[k].lastTrick == seats[k].lastTrick && s[k].uid == seats[k].uid
    decreases |seats| - i
  {
    if i < |seats| && deck != [] {
      var n := |deck| - 1;
      DrawStaysStill(seats[i := seats[i].(cards := seats[i].cards + [deck[n]])], deck[..n], i + 1);
    }
  }

  lemma TaskIsStill(m: Match, task: Task, now: int, shuffled: seq<int>)
    requires OfPlay(task) && !task.NewRound?
    ensures Still(m, m.RunTask(task, now, shuffled))
  {
    DrawStaysStill(m.seats, m.deck, 0);
  }

  /** The tasks due change no points, or one of them begins a round and no seat is on turn. */
  ghost predicate StillOrBegun(m: Match, m': Match) {
    Still(m, m') || (RoundBegun(m, m') && NobodyOnTurn(m'))
  }

  lemma StillThenBegun(m: Match, m': Match, m'': Match)
    requires Still(m, m') && StillOrBegun(m', m'') && forall k :: 0 <= k < |m.seats| ==> m'.seats[k].team == m.seats[k].team
    ensures StillOrBegun(m, m'')
  {
    if RoundBegun(m', m'') && (|m.seats| == SOLO || |m.seats| == DUO) {
      assert TeamPoints(m'.seats, 0) == TeamPoints(m.seats, 0) && TeamPoints(m'.seats, 1) == TeamPoints(m.seats, 1);
    }
  }

  lemma RoundWaits(m: Match, now: int, shuffled: seq<int>)
    requires m.queue.tasks == []
    ensures RunDue(m.StartRound(now), now, shuffled) == m.StartRound(now)
  {
    PushedTwo(m.queue, now + 1_000, DealCards, now + 2_000, NewHand);
    assert !m.StartRound(now).queue.HasDue(now);
  }

  /** A round about to begin is the only task, and nobody is on turn. */
  lemma RoundIsAlone(m: Match, now: int)
    requires Shape(m) && m.queue.HasDue(now) && m.queue.tasks[0].task.NewRound?
    ensures Popped(m).queue.tasks == [] && Seated(Popped(m)) && NobodyOnTurn(Popped(m))
  {
    SameQuietStage(m, Popped(m));
  }

  lemma StartTurnsNobody(m: Match, now: int)
    requires NobodyOnTurn(m) && Seated(m)
    ensures NobodyOnTurn(m.StartRound(now)) && StillOrBegun(m, m.StartRound(now))
  {
    StartBeginsRound(m, now);
  }

  lemma NewRoundAlone(m: Match, now: int, shuffled: seq<int>)
    requires Shape(m) && m.queue.HasDue(now) && m.queue.tasks[0].task.NewRound?
    ensures var m' := Popped(m).RunTask(NewRound, now, shuffled); RunDue(m, now, shuffled) == m' && StillOrBegun(m, m')
  {
    RoundIsAlone(m, now);
    StartTurnsNobody(Popped(m), now);
    RoundWaits(Popped(m), now, shuffled);
  }

  lemma {:induction false} DrainAccounts(m: Match, now: int, shuffled: seq<int>)
    requires Inv(m) && m.phase.Playing? && m.ledger.clock == now && Shuffled(shuffled)
    ensures StillOrBegun(m, RunDue(m, now, shuffled))
    decreases m.queue.DueCount(now)
  {
    if m.queue.HasDue(now) {
      var task := m.queue.tasks[0].task;
      TaskRunsInTime(m, now, shuffled);
      if task.NewRound? {
        NewRoundAlone(m, now, shuffled);
      } else {
        var m' := Popped(m).RunTask(task, now, shuffled);
        TaskKeepsDue(Popped(m), task, now, shuffled);
        TaskKeepsInv(m, now, shuffled);
        TaskKeepsShape(m, now, shuffled);
        TaskPeople(Popped(m), task, now, shuffled);
        TaskIsStill(Popped(m), task, now, shuffled);
        DrainAccounts(m', now, shuffled);
        StillThenBegun(m, m', RunDue(m', now, shuffled));
      }
    }
  }

  lemma EndIsStill(m: Match, now: int)
    ensures Still(m, m.EndGame(now))
  {
  }

  lemma AfterTasksAccount(m: Match, tick: Tick)
    requires Shape(m) && m.phase.Playing?
    ensures Still(m, m.AfterTasks(tick)) || TrickPaid(m, m.AfterTasks(tick))
    ensures NobodyOnTurn(m) ==> Still(m, m.AfterTasks(tick))
  {
    EndIsStill(m, tick.now);
    TurnsPay(m, 0, tick);
    if NobodyOnTurn(m) { NobodysTurns(m, 0, tick); }
  }

  lemma StillTwice(m: Match, m': Match, m'': Match)
    requires StillOrBegun(m, m') && (Still(m', m'') || (Still(m, m') && TrickPaid(m', m'')))
    requires forall k :: 0 <= k < |m'.seats| == |m''.seats| ==> m''.seats[k].team == m'.seats[k].team
    ensures Still(m, m'') || TrickPaid(m, m'') || RoundBegun(m, m'')
  {
    if Still(m, m') {
      if TrickPaid(m', m'') { StillThenPaid(m, m', m''); }
    } else if |m'.seats| == SOLO || |m'.seats| == DUO {
      assert TeamPoints(m''.seats, 0) == TeamPoints(m'.seats, 0) && TeamPoints(m''.seats, 1) == TeamPoints(m'.seats, 1);
    }
  }

  lemma TickAccounts(m: Match, tick: Tick)
    requires Inv(m) && m.phase.Playing? && m.ledger.clock == tick.now && Shuffled(tick.shuffled)
    ensures Still(m, Loop(m, tick)) || TrickPaid(m, Loop(m, tick)) || RoundBegun(m, Loop(m, tick))
  {
    var drained := RunDue(m, tick.now, tick.shuffled);
    DrainAccounts(m, tick.now, tick.shuffled);
    DrainPeople(m, tick.now, tick.shuffled);
    DrainKeepsInv(m, tick.now, tick.shuffled);
    AfterTasksAccount(drained, tick);
    AfterTasksPeople(drained, tick);
    StillTwice(m, drained, drained.AfterTasks(tick));
  }

  lemma ReturnIsStill(m: Match, uid: int)
    ensures Still(m, m.ReturnToTable(uid))
  {
  }

  lemma JoinIsStill(m: Match, uid: int)
    requires Seating(m) && Full(m.seats) && uid > NO_WINNER
    ensures Still(m, m.TryJoin(uid, false, 1))
  {
    JoinKeepsSeating(m, uid, false, 1);
  }

  lemma OutsiderIsStill(m: Match, uid: int)
    requires Seating(m) && !m.IsPlayer(uid)
    ensures Still(m, m.UserLeave(uid))
  {
    OutsiderLeavesNoSeat(m, uid);
  }

  lemma PacketAccounts(m: Match, now: int, e: Event)
    requires Inv(m) && m.phase.Playing? && !e.Elapse? && Admissible(m, now, e)
    ensures Accounted(m, Handle(m, now, e), e)
  {
    match e
    case Join(uid) => JoinIsStill(m, uid);
    case EnterSeat(uid, _) => JoinIsStill(m, uid);
    case LeaveTable(uid, _) => if !m.IsPlayer(uid) { OutsiderIsStill(m, uid); }
    case Drop(uid) => if !m.IsPlayer(uid) { OutsiderIsStill(m, uid); }
    case Return(uid) => ReturnIsStill(m, uid);
    case Play(uid, card) => PlayPays(m, uid, card, false, now);
    case ClaimNapoli(uid) => NapoliPays(m, uid);
  }

  lemma AtIsStill(m: Match, now: int, m': Match, e: Event)
    requires Accounted(At(m, now), m', e)
    ensures Accounted(m, m', e)
  {
    if TrickPaid(At(m, now), m') {
      StillThenPaid(m, At(m, now), m');
    } else if e.ClaimNapoli? && NapoliPaid(At(m, now), m', e.uid) {
      var i :| ClaimPaid(At(m, now), m', e.uid, i);
      assert ClaimPaid(m, m', e.uid, i);
    }
  }

  lemma StepAccounts(m: Match, now: int, e: Event)
    requires Inv(m) && m.phase.Playing? && Admissible(m, now, e)
    ensures Accounted(m, Step(m, now, e), e)
  {
    ClockKeepsInv(m, now);
    match e
    case Elapse(tick) =>
      TickAccounts(At(m, now), tick);
      AtIsStill(m, now, Step(m, now, e), e);
    case _ =>
      PacketAccounts(At(m, now), now, e);
      AtIsStill(m, now, Step(m, now, e), e);
  }

  /**
   In every admissible run, while a game is on, no event changes any points but as the rules say: a
   trick pays its strongest card, a claim its napoli, and a new round drops what is no whole point.
   */
  lemma PointsMoveByTheRules(playerMode: nat, pointMode: int, clock: nat, events: seq<(int, Event)>, now: int, e: Event)
    requires (playerMode == SOLO || playerMode == DUO) && AdmissibleRun(NewMatch(playerMode, pointMode, clock), events)
    requires Admissible(Run(NewMatch(playerMode, pointMode, clock), events), now, e)
    ensures var m := Run(NewMatch(playerMode, pointMode, clock), events);
            m.phase.Playing? ==> Accounted(m, Step(m, now, e), e)
  {
    var m := Run(NewMatch(playerMode, pointMode, clock), events);
    NewMatchInv(playerMode, pointMode, clock);
    RunKeepsInv(NewMatch(playerMode, pointMode, clock), events);
    if m.phase.Playing? { StepAccounts(m, now, e); }
  }
}
