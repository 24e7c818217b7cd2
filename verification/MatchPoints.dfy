/**
 How many points there can be. Within the hour points stay small, so nothing the search bot adds up
 leaves the range of an `int`, and in a game for two no seat ever stalls.
 */
module MatchPoints {
  import opened Options
  import opened TressetteCards
  import opened DelayedTasks
  import opened TressetteMatch
  import opened MatchRuns
  import opened MatchCards
  import opened MatchShape
  import opened MatchRounds
  import opened MatchScores
  import opened MatchTheorems
  import opened MatchHour
  import opened MatchBots
  import opened MatchProgress

  // ----- what a round can add -----

  /** Forty cards of at most three thirds, four napoli sets for each of four seats, and the last trick. */
  const MOST_PER_ROUND := 171

  function Uids(seats: seq<Seat>): set<int> {
    set k | 0 <= k < |seats| :: seats[k].uid
  }

  lemma {:induction false} UidsAreFew(seats: seq<Seat>)
    ensures |Uids(seats)| <= |seats|
  {
    if seats != [] {
      var n := |seats| - 1;
      UidsAreFew(seats[..n]);
      forall uid ensures uid in Uids(seats) <==> uid in Uids(seats[..n]) + {seats[n].uid} {
        if uid in Uids(seats) {
          var k :| 0 <= k < |seats| && seats[k].uid == uid;
          if k < n { assert seats[..n][k].uid == uid; }
        }
        if uid in Uids(seats[..n]) {
          var k :| 0 <= k < n && seats[..n][k].uid == uid;
          assert seats[k].uid == uid;
        }
      }
      assert Uids(seats) == Uids(seats[..n]) + {seats[n].uid};
    } else {
      assert Uids(seats) == {};
    }
  }

  /** Completed rounds have added no more than they can, and each user claims at most once a round. */
  ghost predicate Capped(m: Match) {
    && (m.curRound == 0 ==> m.ledger.base == 0 && m.ledger.napoliSets == 0)
    && (m.curRound >= 1 ==>
          && m.ledger.base <= MOST_PER_ROUND * (m.curRound - 1)
          && m.napoli <= Uids(m.seats) && m.ledger.napoliSets <= 4 * |m.napoli|)
  }

  lemma WonIsSmall(m: Match)
    requires Shape(m)
    ensures ValueOf(m.ledger.won) <= 120 && (m.curRound == 0 ==> m.ledger.won == [] && !m.ledger.lastTrickPaid)
  {
    if RoundOver(m) {
      AllWon(m);
    } else {
      assert |m.ledger.won| <= 40;
      ValueIsSmall(m.ledger.won);
    }
  }

  lemma SubsetIsSmaller(a: set<int>, b: set<int>)
    requires a <= b
    ensures |a| <= |b|
  {
    assert b == a + (b - a);
  }

  lemma SumIsCapped(m: Match)
    requires Shape(m) && Scores(m) && Capped(m)
    ensures SumPoints(m.seats) <= MOST_PER_ROUND * m.curRound
  {
    WonIsSmall(m);
    UidsAreFew(m.seats);
    if m.curRound >= 1 { SubsetIsSmaller(m.napoli, Uids(m.seats)); }
  }

  lemma {:induction false} EachIsPartOfSum(seats: seq<Seat>, k: nat)
    requires k < |seats| && forall i :: 0 <= i < |seats| ==> seats[i].points >= 0
    ensures seats[k].points <= SumPoints(seats)
  {
    var n := |seats| - 1;
    if k < n { EachIsPartOfSum(seats[..n], k); } else { PointsSumUp(seats[..n]); }
  }

  // ----- every step keeps the cap -----

  ghost predicate SameAccount(m: Match, m': Match) {
    && m'.curRound == m.curRound && m'.napoli == m.napoli
    && m'.ledger.base == m.ledger.base && m'.ledger.napoliSets == m.ledger.napoliSets && |m'.seats| == |m.seats|
    && forall k :: 0 <= k < |m.seats| ==> m'.seats[k].uid == m.seats[k].uid
  }

  lemma SameAccountCapped(m: Match, m': Match)
    requires Capped(m) && SameAccount(m, m')
    ensures Capped(m')
  {
    assert Uids(m'.seats) == Uids(m.seats) by {
      forall uid ensures uid in Uids(m'.seats) <==> uid in Uids(m.seats) {
        if uid in Uids(m.seats) { var k :| 0 <= k < |m.seats| && m.seats[k].uid == uid; assert m'.seats[k].uid == uid; }
        if uid in Uids(m'.seats) { var k :| 0 <= k < |m.seats| && m'.seats[k].uid == uid; assert m.seats[k].uid == uid; }
      }
    }
  }

  lemma AfterHandAccount(m: Match, now: int, endRound: bool)
    ensures SameAccount(m, m.AfterHand(now, endRound))
  {
  }

  lemma EndHandAccount(m: Match, now: int)
    ensures SameAccount(m, m.EndHand(now))
  {
    var w := SlotOf(m.table, BestOfSuit(m.table, m.suit, |m.table|));
    if 0 <= w < |m.seats| { AfterHandAccount(m.Paid(w), now, m.deck == [] && m.seats[0].cards == []); }
  }

  lemma AcceptAccount(m: Match, i: nat, card: int, now: int)
    requires i < |m.seats| == |m.table|
    ensures SameAccount(m, m.Accept(i, card, now))
  {
    var placed := m.Placed(i, card);
    if NO_CARD !in placed.table { EndHandAccount(placed.(turn := -1), now); }
  }

  lemma PlayAccount(m: Match, uid: int, card: int, isAuto: bool, now: int)
    ensures SameAccount(m, m.PlayCard(uid, card, isAuto, now).0)
  {
    var i := m.FindPlayer(uid);
    if i >= 0 {
      var held := m.Held(i, isAuto);
      assert SameAccount(m, held);
      if |m.table| == |m.seats| { AcceptAccount(held, i, card, now); }
    }
  }

  lemma TurnAccount(m: Match, i: nat, tick: Tick)
    requires i < |m.seats|
    ensures SameAccount(m, m.SeatTurn(i, tick.now, tick.expired))
  {
    if m.seats[i].cards != [] {
      var auto := m.(seats := m.seats[i := m.seats[i].(isAuto := true)]);
      PlayAccount(m, m.seats[i].uid, m.BotCard(i), false, tick.now);
      PlayAccount(auto, m.seats[i].uid, FirstOfSuit(m.seats[i].cards, m.suit), true, tick.now);
    }
  }

  lemma {:induction false} TurnsAccount(m: Match, i: nat, tick: Tick)
    requires i <= |m.seats|
    ensures SameAccount(m, m.AllTurns(i, tick))
    decreases |m.seats| - i
  {
    if i < |m.seats| {
      TurnAccount(m, i, tick);
      TurnsAccount(m.SeatTurn(i, tick.now, tick.expired), i + 1, tick);
    }
  }

  lemma {:induction false} SumTrims(a: seq<Seat>, b: seq<Seat>)
    requires |a| == |b| && forall k :: 0 <= k < |a| ==> b[k].points <= a[k].points
    ensures SumPoints(b) <= SumPoints(a)
  {
    if a != [] { SumTrims(a[..|a| - 1], b[..|b| - 1]); }
  }

  lemma RoundCapped(m: Match, now: int)
    requires Shape(m) && Scores(m) && Capped(m) && m.curRound >= 0
    ensures Capped(m.StartRound(now))
  {
    SumIsCapped(m);
    SumTrims(m.seats, Trimmed(m.seats, m.playerMode));
  }

  lemma TaskAccount(m: Match, task: Task, now: int, shuffled: seq<int>)
    requires OfPlay(task) && !task.NewRound?
    ensures SameAccount(m, m.RunTask(task, now, shuffled))
  {
    DrawFromSeats(m.seats, m.deck, 0);
  }

  lemma TaskCapped(m: Match, now: int, shuffled: seq<int>)
    requires Inv(m) && m.phase.Playing? && m.queue.HasDue(now) && Capped(m) && Shuffled(shuffled)
    ensures Capped(Popped(m).RunTask(m.queue.tasks[0].task, now, shuffled))
  {
    var task := m.queue.tasks[0].task;
    TaskKeepsShape(m, now, shuffled);
    if task.NewRound? {
      SumIsCapped(m);
      SumTrims(m.seats, Trimmed(m.seats, m.playerMode));
    } else {
      TaskAccount(Popped(m), task, now, shuffled);
      SameAccountCapped(m, Popped(m).RunTask(task, now, shuffled));
    }
  }

  lemma {:induction false} DrainCapped(m: Match, now: int, shuffled: seq<int>)
    requires Inv(m) && m.phase.Playing? && m.ledger.clock == now && Shuffled(shuffled) && Capped(m)
    ensures Capped(RunDue(m, now, shuffled))
    decreases m.queue.DueCount(now)
  {
    if m.queue.HasDue(now) {
      TaskKeepsDue(Popped(m), m.queue.tasks[0].task, now, shuffled);
      TaskRunsInTime(m, now, shuffled);
      TaskKeepsInv(m, now, shuffled);
      TaskKeepsShape(m, now, shuffled);
      TaskCapped(m, now, shuffled);
      DrainCapped(Popped(m).RunTask(m.queue.tasks[0].task, now, shuffled), now, shuffled);
    }
  }

  /** A claim is by a seated user who has not claimed this round. */
  lemma ClaimCapped(m: Match, uid: int, i: nat, sets: nat)
    requires m.curRound >= 1 && Capped(m) && i < |m.seats| && m.seats[i].uid == uid && uid !in m.napoli && sets <= 4
    ensures Capped(m.NapoliPaid(uid, i, sets))
  {
    var m' := m.NapoliPaid(uid, i, sets);
    assert uid in Uids(m.seats);
    SameAccountCapped(m, m'.(napoli := m.napoli, ledger := m.ledger));
    assert |m.napoli + {uid}| == |m.napoli| + 1;
  }

  lemma NapoliCapped(m: Match, uid: int)
    requires Shape(m) && Capped(m) && m.curRound >= 0
    ensures Capped(m.Napoli(uid))
  {
    var i := SeatWithUid(m.seats, uid);
    if m.curRound == 0 {
      assert GameOpening(m);
    } else if uid !in m.napoli && i >= 0 {
      ClaimCapped(m, uid, i, NapoliSets(m.seats[i].cards));
    }
  }

  lemma AfterTasksCapped(m: Match, tick: Tick)
    requires Capped(m) && m.phase.Playing? && m.AfterTasks(tick).phase.Playing?
    ensures Capped(m.AfterTasks(tick))
  {
    TurnsAccount(m, 0, tick);
    SameAccountCapped(m, m.AllTurns(0, tick));
  }

  lemma TickCapped(m: Match, tick: Tick)
    requires Inv(m) && m.ledger.clock == tick.now && Shuffled(tick.shuffled) && (m.phase.Playing? ==> Capped(m))
    ensures Loop(m, tick).phase.Playing? ==> Capped(Loop(m, tick))
  {
    var drained := RunDue(m, tick.now, tick.shuffled);
    if m.phase.Playing? {
      DrainCapped(m, tick.now, tick.shuffled);
      DrainPeople(m, tick.now, tick.shuffled);
      if drained.AfterTasks(tick).phase.Playing? { AfterTasksCapped(drained, tick); }
    } else {
      DrainStaysIdle(m, tick.now, tick.shuffled);
    }
  }

  lemma QuietPacketAccount(m: Match, now: int, e: Event)
    requires Inv(m) && m.phase.Playing? && !e.Elapse? && !e.Play? && !e.ClaimNapoli? && Admissible(m, now, e)
    ensures SameAccount(m, Handle(m, now, e))
  {
    PacketPeople(m, now, e);
  }

  lemma PacketCapped(m: Match, now: int, e: Event)
    requires Inv(m) && m.phase.Playing? && !e.Elapse? && Admissible(m, now, e) && Capped(m) && m.curRound >= 0
    ensures Capped(Handle(m, now, e))
  {
    match e
    case Play(uid, card) =>
      PlayAccount(m, uid, card, false, now);
      SameAccountCapped(m, Handle(m, now, e));
    case ClaimNapoli(uid) => NapoliCapped(m, uid);
    case _ =>
      QuietPacketAccount(m, now, e);
      SameAccountCapped(m, Handle(m, now, e));
  }

  lemma StepCapped(m: Match, now: int, e: Event)
    requires Inv(m) && Admissible(m, now, e) && (m.phase.Playing? ==> Capped(m) && Paced(m))
    ensures Step(m, now, e).phase.Playing? ==> Capped(Step(m, now, e))
  {
    var at := At(m, now);
    ClockKeepsInv(m, now);
    match e
    case Elapse(tick) => TickCapped(at, tick);
    case _ => if m.phase.Playing? { PacketCapped(at, now, e); } else { PacketPaced(at, now, e); }
  }

  // ----- whole runs -----

  ghost predicate Modest(m: Match) {
    WithinHour(m) && (m.phase.Playing? ==> Capped(m))
  }

  lemma {:induction false} RunIsModest(m: Match, events: seq<(int, Event)>)
    requires Inv(m) && Modest(m) && AdmissibleRun(m, events)
    ensures Modest(Run(m, events))
    decreases |events|
  {
    if events != [] {
      StepKeepsInv(m, events[0].0, events[0].1);
      StepWithinHour(m, events[0].0, events[0].1);
      StepCapped(m, events[0].0, events[0].1);
      RunIsModest(Step(m, events[0].0, events[0].1), events[1..]);
    }
  }

  /** In every game of every admissible run from a new table all points together stay below 153,901. */
  lemma PointsStaySmall(playerMode: nat, pointMode: int, clock: nat, events: seq<(int, Event)>)
    requires (playerMode == SOLO || playerMode == DUO) && AdmissibleRun(NewMatch(playerMode, pointMode, clock), events)
    ensures var m := Run(NewMatch(playerMode, pointMode, clock), events);
            m.phase.Playing? ==>
              && SumPoints(m.seats) <= MOST_PER_ROUND * MOST_ROUNDS
              && forall k :: 0 <= k < |m.seats| ==> 0 <= m.seats[k].points <= MOST_PER_ROUND * MOST_ROUNDS
  {
    var start := NewMatch(playerMode, pointMode, clock);
    NewMatchInv(playerMode, pointMode, clock);
    RunKeepsInv(start, events);
    RunIsModest(start, events);
    var m := Run(start, events);
    if m.phase.Playing? {
      SumIsCapped(m);
      forall k | 0 <= k < |m.seats| ensures m.seats[k].points <= SumPoints(m.seats) {
        EachIsPartOfSum(m.seats, k);
      }
    }
  }
}
