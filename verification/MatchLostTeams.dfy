/**
 Runs in which seats lose their teams before the game: users leave and others take their seats. A
 teamless seat that wins every trick carries the game past the bound that points set with all teams,
 so that bound holds over the runs of a table if and only if every seat has its team.
 */
module MatchLostTeams {
  import opened Options
  import opened TressetteCards
  import opened DelayedTasks
  import opened TressetteMatch
  import opened MatchRuns
  import opened MatchShape
  import opened MatchRounds
  import opened MatchScores
  import opened MatchTheorems
  import opened MatchProgress
  import opened MatchDeals
  import opened MatchTeamless
  import MatchSeats

  ghost predicate SameTable(m: Match, m': Match) {
    m'.playerMode == m.playerMode && m'.pointMode == m.pointMode
  }

  function TeamsOf(m: Match): (teams: seq<int>)
    ensures |teams| == |m.seats| && forall k :: 0 <= k < |teams| ==> teams[k] == m.seats[k].team
  {
    seq(|m.seats|, k requires 0 <= k < |m.seats| => m.seats[k].team)
  }

  // ----- playing on -----

  /** The next moment something happens, with every turn timer run out. */
  ghost function NextTick(m: Match, i: nat): Tick
    requires (m.playerMode == SOLO || m.playerMode == DUO) && i < m.playerMode
  {
    var now := if NonePending(m) then m.ledger.clock else Later(m.ledger.clock, m.queue.tasks[0].runAt);
    Tick(now, TopDeal(m.playerMode, i), {0, 1, 2, 3}, false, None, 1)
  }

  /** A game seat `i` wins, before the hour is over. */
  ghost predicate Favoured(m: Match, i: nat) {
    Inv(m) && m.phase.Playing? && WinsAll(m, i)
  }

  lemma NextIsDue(m: Match, i: nat)
    requires Favoured(m, i)
    ensures m.ledger.clock <= NextTick(m, i).now <= m.ledger.clock + 5_500
    ensures !NonePending(m) ==> m.queue.HasDue(NextTick(m, i).now)
  {
    if !NonePending(m) { assert TaskInTime(m, m.queue.tasks[0]); }
  }

  lemma NextIsSoon(m: Match, i: nat)
    requires Favoured(m, i)
    ensures m.ledger.clock <= NextTick(m, i).now <= m.ledger.clock + 5_500
    ensures Admissible(m, NextTick(m, i).now, Elapse(NextTick(m, i)))
  {
    TopDealIsShuffled(m.playerMode, i);
    NextIsDue(m, i);
  }

  lemma NextRunsOut(m: Match, i: nat)
    requires Favoured(m, i)
    ensures RunOut(m, NextTick(m, i))
  {
    NextIsDue(m, i);
  }

  lemma DrainedWins(m: Match, i: nat, now: int)
    requires Favoured(m, i) && m.ledger.clock == now
    ensures var m' := RunDue(m, now, TopDeal(m.playerMode, i)); Favoured(m', i) && m'.timeStart == m.timeStart
  {
    TopDealIsShuffled(m.playerMode, i);
    DrainKeepsWinning(m, i, now);
    DrainKeepsInv(m, now, TopDeal(m.playerMode, i));
    DrainPeople(m, now, TopDeal(m.playerMode, i));
  }

  lemma AfterTasksWin(m: Match, i: nat, tick: Tick)
    requires Favoured(m, i) && tick.now - m.timeStart <= TIME_MATCH_MAXIMUM
    ensures var m' := m.AfterTasks(tick); WinsAll(m', i) && m'.phase.Playing? && m'.timeStart == m.timeStart
  {
    TurnsKeepWinning(m, i, 0, tick);
    AfterTasksPeople(m, tick);
  }

  lemma LoopWins(m: Match, i: nat, tick: Tick)
    requires Favoured(m, i) && m.ledger.clock == tick.now <= m.timeStart + TIME_MATCH_MAXIMUM
    requires tick.shuffled == TopDeal(m.playerMode, i)
    ensures var m' := Loop(m, tick); WinsAll(m', i) && m'.phase.Playing? && m'.timeStart == m.timeStart
  {
    DrainedWins(m, i, tick.now);
    AfterTasksWin(RunDue(m, tick.now, tick.shuffled), i, tick);
  }

  lemma TickKeepsWinning(m: Match, i: nat)
    requires Favoured(m, i) && NextTick(m, i).now - m.timeStart <= TIME_MATCH_MAXIMUM
    ensures var tick := NextTick(m, i); WinsAll(Step(m, tick.now, Elapse(tick)), i) && Step(m, tick.now, Elapse(tick)).phase.Playing?
    ensures Step(m, NextTick(m, i).now, Elapse(NextTick(m, i))).timeStart == m.timeStart
  {
    var tick := NextTick(m, i);
    NextIsSoon(m, i);
    ClockKeepsInv(m, tick.now);
    LoopWins(At(m, tick.now), i, tick);
  }

  /** The most steps a round takes, the beginning of it included. */
  const ROUND_STEPS := 83

  /** Steps from here to the end of round `rounds`. */
  ghost function StepsTo(m: Match, rounds: int): int {
    (rounds - m.curRound) * ROUND_STEPS + StepsLeft(m)
  }

  lemma FewerSteps(m: Match, m': Match, rounds: nat)
    requires Shape(m) && Shape(m') && MovedOn(m, m') && m'.phase.Playing? && m.curRound <= rounds && StepsTo(m, rounds) > 0
    ensures m'.curRound <= rounds && 0 <= StepsTo(m', rounds) < StepsTo(m, rounds)
  {
    StepsLeftBounds(m);
    StepsLeftBounds(m');
  }

  lemma FavouredStep(m: Match, i: nat, rounds: nat)
    requires Favoured(m, i) && m.curRound <= rounds && StepsTo(m, rounds) > 0
    requires m.ledger.clock + 5_500 * StepsTo(m, rounds) <= m.timeStart + TIME_MATCH_MAXIMUM
    ensures Admissible(m, NextTick(m, i).now, Elapse(NextTick(m, i)))
    ensures var m' := Step(m, NextTick(m, i).now, Elapse(NextTick(m, i)));
            && Favoured(m', i) && TeamsOf(m') == TeamsOf(m) && SameTable(m, m') && m'.curRound <= rounds
            && 0 <= StepsTo(m', rounds) < StepsTo(m, rounds)
            && m'.ledger.clock + 5_500 * StepsTo(m', rounds) <= m'.timeStart + TIME_MATCH_MAXIMUM
  {
    var tick := NextTick(m, i);
    NextIsSoon(m, i);
    NextRunsOut(m, i);
    TickKeepsWinning(m, i);
    var m' := Step(m, tick.now, Elapse(tick));
    StepKeepsInv(m, tick.now, Elapse(tick));
    StepInTime(m, tick.now, Elapse(tick));
    TickMovesOn(m, tick);
    NobodyLeavesAGame(m, tick.now, Elapse(tick));
    assert TeamsOf(m') == TeamsOf(m);
    FewerSteps(m, m', rounds);
  }

  /** Tick by tick to the end of round `rounds`. */
  lemma {:induction false} PlaysOn(m: Match, i: nat, rounds: nat) returns (events: seq<(int, Event)>)
    requires Favoured(m, i) && m.curRound <= rounds && 0 <= StepsTo(m, rounds) && rounds >= 1
    requires m.ledger.clock + 5_500 * StepsTo(m, rounds) <= m.timeStart + TIME_MATCH_MAXIMUM
    ensures AdmissibleRun(m, events)
    ensures var m' := Run(m, events);
            && m'.phase.Playing? && RoundOver(m') && m'.curRound == rounds
            && TeamsOf(m') == TeamsOf(m) && SameTable(m, m')
    decreases StepsTo(m, rounds)
  {
    StepsLeftBounds(m);
    if StepsTo(m, rounds) == 0 {
      events := [];
    } else {
      var tick := NextTick(m, i);
      FavouredStep(m, i, rounds);
      var rest := PlaysOn(Step(m, tick.now, Elapse(tick)), i, rounds);
      RunStarts(m, (tick.now, Elapse(tick)), rest);
      events := [(tick.now, Elapse(tick))] + rest;
    }
  }

  // ----- before the game -----

  /** A table that waits at time 0, its seats taken by these users for these teams. */
  ghost predicate Lobby(m: Match, uids: seq<int>, teams: seq<int>) {
    && Inv(m) && m.phase.Waiting? && m.ledger.clock == 0 && NonePending(m) && m.pointMode > 0
    && |uids| == |teams| == |m.seats|
    && forall k :: 0 <= k < |m.seats| ==> m.seats[k].uid == uids[k] && m.seats[k].team == teams[k] && !m.seats[k].isBot
  }

  lemma LobbyJoin(m: Match, uids: seq<int>, teams: seq<int>, k: nat, uid: int)
    requires Lobby(m, uids, teams) && k < |uids| && uids[k] == EMPTY_UID && uid > NO_WINNER && uid !in uids
    requires forall j :: 0 <= j < k ==> uids[j] != EMPTY_UID
    ensures Admissible(m, 0, Join(uid)) && Lobby(Step(m, 0, Join(uid)), uids[k := uid], teams)
    ensures SameTable(m, Step(m, 0, Join(uid)))
  {
    var at := At(m, 0);
    StepKeepsInv(m, 0, Join(uid));
    forall j | 0 <= j < |uids| ensures m.seats[j].uid != uid {
      assert uids[j] in uids;
    }
    SeatMissing(m.seats, uid);
    SeatFound(m.seats, k);
    assert at.TryJoin(uid, false, 1).seats == m.seats[k := m.seats[k].(uid := uid, isBot := false)];
  }

  lemma LobbyLeave(m: Match, uids: seq<int>, teams: seq<int>, k: nat)
    requires Lobby(m, uids, teams) && k < |uids| && uids[k] > NO_WINNER
    ensures Admissible(m, 0, LeaveTable(uids[k], 0))
    ensures Lobby(Step(m, 0, LeaveTable(uids[k], 0)), uids[k := EMPTY_UID], teams[k := NO_TEAM])
    ensures SameTable(m, Step(m, 0, LeaveTable(uids[k], 0)))
  {
    var at := At(m, 0);
    StepKeepsInv(m, 0, LeaveTable(uids[k], 0));
    SeatFound(m.seats, k);
    assert at.FindPlayer(uids[k]) == k;
    LeaveOne(at, uids[k]);
    forall j | 0 <= j < |uids| ensures Vacate(m.seats, {uids[k]})[j] == if j == k then VACANT else m.seats[j] {
    }
  }

  // ----- everybody sits down -----

  function Joined(n: nat, k: nat): (uids: seq<int>)
    ensures |uids| == n && forall j :: 0 <= j < n ==> uids[j] == if j < k then j + 1 else EMPTY_UID
  {
    seq(n, j => if j < k then j + 1 else EMPTY_UID)
  }

  lemma {:induction false} FillUp(m: Match, teams: seq<int>, k: nat) returns (events: seq<(int, Event)>)
    requires k <= |teams| && Lobby(m, Joined(|teams|, k), teams)
    ensures AdmissibleRun(m, events) && Lobby(Run(m, events), Joined(|teams|, |teams|), teams)
    ensures SameTable(m, Run(m, events))
    decreases |teams| - k
  {
    var n := |teams|;
    if k == n {
      events := [];
    } else {
      LobbyJoin(m, Joined(n, k), teams, k, k + 1);
      assert Joined(n, k)[k := k + 1] == Joined(n, k + 1);
      var rest := FillUp(Step(m, 0, Join(k + 1)), teams, k + 1);
      RunStarts(m, (0, Join(k + 1)), rest);
      events := [(0, Join(k + 1))] + rest;
    }
  }

  // ----- some seats change hands -----

  /** The teams a table for `n` can have: those it started with, less the seats that were left. */
  predicate TeamsLeft(teams: seq<int>) {
    (|teams| == SOLO || |teams| == DUO) && forall k :: 0 <= k < |teams| ==> teams[k] == k % 2 || teams[k] == NO_TEAM
  }

  function SwappedUids(teams: seq<int>, k: nat): (uids: seq<int>)
    ensures |uids| == |teams|
    ensures forall j :: 0 <= j < |uids| ==> uids[j] == if j < k && teams[j] == NO_TEAM then |teams| + j + 1 else j + 1
  {
    seq(|teams|, j requires 0 <= j < |teams| => if j < k && teams[j] == NO_TEAM then |teams| + j + 1 else j + 1)
  }

  function SwappedTeams(teams: seq<int>, k: nat): (r: seq<int>)
    ensures |r| == |teams| && forall j :: 0 <= j < |r| ==> r[j] == if j < k then teams[j] else j % 2
  {
    seq(|teams|, j requires 0 <= j < |teams| => if j < k then teams[j] else j % 2)
  }

  /** The user of seat `k` leaves and another one sits down: the team is gone. */
  lemma SeatChanges(m: Match, uids: seq<int>, teams: seq<int>, k: nat, uid: int)
    requires Lobby(m, uids, teams) && k < |uids| && uids[k] > NO_WINNER && uid > NO_WINNER && uid !in uids
    requires forall j :: 0 <= j < k ==> uids[j] != EMPTY_UID
    ensures Admissible(m, 0, LeaveTable(uids[k], 0))
    ensures var left := Step(m, 0, LeaveTable(uids[k], 0));
            && Admissible(left, 0, Join(uid)) && SameTable(m, Step(left, 0, Join(uid)))
            && Lobby(Step(left, 0, Join(uid)), uids[k := uid], teams[k := NO_TEAM])
  {
    var without := uids[k := EMPTY_UID];
    LobbyLeave(m, uids, teams, k);
    forall j | 0 <= j < |uids| ensures without[j] != uid {
      assert uids[j] in uids;
    }
    LobbyJoin(Step(m, 0, LeaveTable(uids[k], 0)), without, teams[k := NO_TEAM], k, uid);
    assert without[k := uid] == uids[k := uid];
  }

  lemma SwapOne(m: Match, teams: seq<int>, k: nat)
    requires TeamsLeft(teams) && k < |teams| && teams[k] == NO_TEAM
    requires Lobby(m, SwappedUids(teams, k), SwappedTeams(teams, k))
    ensures Admissible(m, 0, LeaveTable(k + 1, 0))
    ensures var left := Step(m, 0, LeaveTable(k + 1, 0));
            && Admissible(left, 0, Join(|teams| + k + 1))
            && Lobby(Step(left, 0, Join(|teams| + k + 1)), SwappedUids(teams, k + 1), SwappedTeams(teams, k + 1))
            && SameTable(m, Step(left, 0, Join(|teams| + k + 1)))
  {
    var uids, was := SwappedUids(teams, k), SwappedTeams(teams, k);
    SeatChanges(m, uids, was, k, |teams| + k + 1);
    assert uids[k := |teams| + k + 1] == SwappedUids(teams, k + 1);
    assert was[k := NO_TEAM] == SwappedTeams(teams, k + 1);
  }

  lemma {:induction false} SwapAll(m: Match, teams: seq<int>, k: nat) returns (events: seq<(int, Event)>)
    requires TeamsLeft(teams) && k <= |teams| && Lobby(m, SwappedUids(teams, k), SwappedTeams(teams, k))
    ensures AdmissibleRun(m, events) && Lobby(Run(m, events), SwappedUids(teams, |teams|), teams)
    ensures SameTable(m, Run(m, events))
    decreases |teams| - k
  {
    if k == |teams| {
      assert SwappedTeams(teams, k) == teams;
      events := [];
    } else if teams[k] != NO_TEAM {
      assert SwappedUids(teams, k + 1) == SwappedUids(teams, k) && SwappedTeams(teams, k + 1) == SwappedTeams(teams, k);
      events := SwapAll(m, teams, k + 1);
    } else {
      var leave, join := (0, LeaveTable(k + 1, 0)), (0, Join(|teams| + k + 1));
      SwapOne(m, teams, k);
      var left := Step(m, leave.0, leave.1);
      var rest := SwapAll(Step(left, join.0, join.1), teams, k + 1);
      RunStarts(left, join, rest);
      RunStarts(m, leave, [join] + rest);
      events := [leave] + ([join] + rest);
    }
  }

  // ----- the game starts -----

  function StartTick(now: int): (int, Event) {
    (now, Elapse(Tick(now, FULL_DECK, {}, false, None, 1)))
  }

  lemma LobbyPrepares(m: Match, uids: seq<int>, teams: seq<int>)
    requires Lobby(m, uids, teams) && Full(m.seats)
    ensures Admissible(m, 0, StartTick(0).1) && Step(m, 0, StartTick(0).1) == At(m, 0).PrepareStart(0)
  {
    assert RunDue(At(m, 0), 0, FULL_DECK) == At(m, 0);
  }

  lemma StartTickStarts(m: Match)
    requires m.phase.PreparingStart? && m.timeStart == 3_000 && NonePending(m) && Full(m.seats)
    ensures Step(m, 3_001, StartTick(3_001).1) == At(m, 3_001).StartGame(3_001)
  {
    assert RunDue(At(m, 3_001), 3_001, FULL_DECK) == At(m, 3_001);
  }

  lemma LobbyStarts(m: Match, i: nat)
    requires Inv(m) && m.phase.PreparingStart? && m.timeStart == 3_000 && NonePending(m) && Full(m.seats) && m.pointMode > 0
    requires m.ledger.clock == 0 && i < |m.seats| && !OnATeam(m.seats[i].team)
    requires forall k :: 0 <= k < |m.seats| ==> !m.seats[k].isBot
    ensures Admissible(m, 3_001, StartTick(3_001).1)
    ensures var m' := Step(m, 3_001, StartTick(3_001).1);
            && Favoured(m', i) && m'.curRound == 0 && m'.timeStart == m'.ledger.clock == 3_001
            && TeamsOf(m') == TeamsOf(m) && SameTable(m, m')
  {
    var m' := At(m, 3_001).StartGame(3_001);
    StartTickStarts(m);
    StepKeepsInv(m, 3_001, StartTick(3_001).1);
    assert m'.seats == ResetSeats(m.seats);
    assert TeamsOf(m') == TeamsOf(m);
    assert WinsAll(m', i);
  }

  lemma StartsFavoured(m: Match, uids: seq<int>, teams: seq<int>, i: nat) returns (events: seq<(int, Event)>)
    requires Lobby(m, uids, teams) && Full(m.seats) && i < |m.seats| && !OnATeam(teams[i])
    ensures AdmissibleRun(m, events)
    ensures var m' := Run(m, events);
            && Favoured(m', i) && m'.curRound == 0 && m'.timeStart == m'.ledger.clock == 3_001
            && TeamsOf(m') == teams && SameTable(m, m')
  {
    LobbyPrepares(m, uids, teams);
    StepKeepsInv(m, 0, StartTick(0).1);
    var ready := Step(m, 0, StartTick(0).1);
    assert TeamsOf(ready) == teams;
    LobbyStarts(ready, i);
    RunStarts(ready, StartTick(3_001), []);
    RunStarts(m, StartTick(0), [StartTick(3_001)]);
    events := [StartTick(0)] + [StartTick(3_001)];
  }

  // ----- from a new table to many rounds -----

  lemma EmptyLobby(teams: seq<int>, pointMode: int)
    requires TeamsLeft(teams) && pointMode > 0
    ensures Lobby(NewMatch(|teams|, pointMode, 0), Joined(|teams|, 0), SwappedTeams(teams, 0))
  {
    NewMatchInv(|teams|, pointMode, 0);
  }

  /** Every pattern of lost teams comes about before a game. */
  lemma LosesTeams(teams: seq<int>, pointMode: int) returns (events: seq<(int, Event)>)
    requires TeamsLeft(teams) && pointMode > 0
    ensures AdmissibleRun(NewMatch(|teams|, pointMode, 0), events)
    ensures Lobby(Run(NewMatch(|teams|, pointMode, 0), events), SwappedUids(teams, |teams|), teams)
    ensures SameTable(NewMatch(|teams|, pointMode, 0), Run(NewMatch(|teams|, pointMode, 0), events))
  {
    var none := NewMatch(|teams|, pointMode, 0);
    EmptyLobby(teams, pointMode);
    var sit := FillUp(none, SwappedTeams(teams, 0), 0);
    assert Joined(|teams|, |teams|) == SwappedUids(teams, 0);
    var swap := SwapAll(Run(none, sit), teams, 0);
    RunConcat(none, sit, swap);
    events := sit + swap;
  }

  /** From a new table: with a teamless seat any number of rounds up to seven is completed and the next one is due. */
  lemma TeamlessGoesOn(teams: seq<int>, i: nat, pointMode: int, rounds: nat) returns (events: seq<(int, Event)>)
    requires TeamsLeft(teams) && i < |teams| && !OnATeam(teams[i]) && pointMode > 0 && 1 <= rounds <= 7
    ensures AdmissibleRun(NewMatch(|teams|, pointMode, 0), events)
    ensures var m := Run(NewMatch(|teams|, pointMode, 0), events);
            && m.phase.Playing? && RoundOver(m) && m.curRound == rounds
            && TeamsOf(m) == teams && m.playerMode == |teams| && m.pointMode == pointMode
  {
    var none := NewMatch(|teams|, pointMode, 0);
    var lobby := LosesTeams(teams, pointMode);
    var start := StartsFavoured(Run(none, lobby), SwappedUids(teams, |teams|), teams, i);
    var game := Run(Run(none, lobby), start);
    StepsLeftBounds(game);
    var rest := PlaysOn(game, i, rounds);
    RunConcat(Run(none, lobby), start, rest);
    RunConcat(none, lobby, start + rest);
    events := lobby + (start + rest);
  }

  // ----- exactly when points bound the rounds -----

  /** The rounds completed are as few as the points of two teams below the target allow. */
  predicate FewRounds(m: Match) {
    RoundsGain(m.playerMode, m.curRound) + (35 - RoundGain(m.playerMode)) <= 2 * (m.PointToWin() - 1)
  }

  ghost predicate BoundAfter(m: Match, teams: seq<int>) {
    m.phase.Playing? && RoundOver(m) && TeamsOf(m) == teams ==> FewRounds(m)
  }

  /** So it is after every round of every admissible run from a new table, if the seats have these teams then. */
  ghost predicate PointsBoundRounds(teams: seq<int>, pointMode: int) {
    forall clock: nat, events :: AdmissibleRun(NewMatch(|teams|, pointMode, clock), events) ==>
      BoundAfter(Run(NewMatch(|teams|, pointMode, clock), events), teams)
  }

  /** One round more than points allow with all teams. */
  function TooManyRounds(n: nat, pointMode: int): nat {
    if n == SOLO then (if pointMode == 11 then 2 else 4) else if pointMode == 11 then 3 else 5
  }

  /** No other teams come about. */
  lemma TeamsAreKeptOrLost(playerMode: nat, pointMode: int, clock: nat, events: seq<(int, Event)>)
    requires (playerMode == SOLO || playerMode == DUO) && AdmissibleRun(NewMatch(playerMode, pointMode, clock), events)
    ensures TeamsLeft(TeamsOf(Run(NewMatch(playerMode, pointMode, clock), events)))
  {
    MatchSeats.SeatsAlwaysFit(playerMode, pointMode, clock, events);
  }

  lemma TeamsBoundRounds(teams: seq<int>, pointMode: int, clock: nat, events: seq<(int, Event)>)
    requires (|teams| == SOLO || |teams| == DUO) && forall k :: 0 <= k < |teams| ==> OnATeam(teams[k])
    requires AdmissibleRun(NewMatch(|teams|, pointMode, clock), events)
    ensures BoundAfter(Run(NewMatch(|teams|, pointMode, clock), events), teams)
  {
    var m := Run(NewMatch(|teams|, pointMode, clock), events);
    NewMatchInv(|teams|, pointMode, clock);
    RunKeepsInv(NewMatch(|teams|, pointMode, clock), events);
    if m.phase.Playing? && RoundOver(m) && TeamsOf(m) == teams {
      forall k | 0 <= k < |m.seats| ensures OnATeam(m.seats[k].team) {
        assert TeamsOf(m)[k] == m.seats[k].team;
      }
      RoundsAreBounded(m);
    }
  }

  lemma TooManyIsTooMany(m: Match)
    requires m.playerMode == SOLO || m.playerMode == DUO
    requires m.pointMode == 11 || m.pointMode == 21
    requires m.curRound == TooManyRounds(m.playerMode, m.pointMode)
    ensures !FewRounds(m)
  {
  }

  /**
   For both tables and both targets, and all teams the seats can have: points bound the rounds of
   every run as with two teams if and only if every seat has its team.
   */
  lemma PointsBoundRoundsIff(teams: seq<int>, pointMode: int)
    requires TeamsLeft(teams) && (pointMode == 11 || pointMode == 21)
    ensures PointsBoundRounds(teams, pointMode) <==> forall k :: 0 <= k < |teams| ==> OnATeam(teams[k])
  {
    if forall k :: 0 <= k < |teams| ==> OnATeam(teams[k]) {
      forall clock: nat, events | AdmissibleRun(NewMatch(|teams|, pointMode, clock), events)
        ensures BoundAfter(Run(NewMatch(|teams|, pointMode, clock), events), teams)
      {
        TeamsBoundRounds(teams, pointMode, clock, events);
      }
    } else {
      var i :| 0 <= i < |teams| && !OnATeam(teams[i]);
      var events := TeamlessGoesOn(teams, i, pointMode, TooManyRounds(|teams|, pointMode));
      var m := Run(NewMatch(|teams|, pointMode, 0), events);
      TooManyIsTooMany(m);
      assert !BoundAfter(m, teams);
    }
  }
}
