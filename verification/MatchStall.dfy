/**
 A refused bot stops a game for four for good: no packet of anybody else and no tick within the hour
 plays a card. An admissible run shows that it happens in the second trick of a game.
 */
module MatchStall {
  import opened Options
  import opened TressetteCards
  import opened DelayedTasks
  import opened TressetteMatch
  import opened MatchRuns
  import opened MatchCards
  import opened MatchShape
  import opened MatchRounds
  import opened MatchScores
  import opened MatchTheorems
  import opened MatchBots
  import CardLists

  // ----- stuck on its cards -----

  /** The bot on turn holds the suit led and the suit it takes for it, and its first card does not follow. */
  predicate HoldsBoth(m: Match)
    requires 0 <= m.turn < |m.seats|
  {
    var hand, seen := m.seats[m.turn].cards, Suit(FirstFilled(m.table));
    && m.seats[m.turn].isBot && m.suit != -1 && seen != m.suit
    && HasSuit(hand, m.suit) && HasSuit(hand, seen) && Suit(hand[0]) != m.suit
  }

  /** Whatever the search finds, the bot's card is refused. */
  ghost predicate Stuck(m: Match) {
    Seated(m) && InTrick(m) && NonePending(m) && HoldsBoth(m)
  }

  lemma StuckIsStalled(m: Match)
    requires Stuck(m)
    ensures Stalled(m)
  {
  }

  /** The same cards everywhere, the same seat on turn and nothing scheduled: nobody has played. */
  ghost predicate NobodyPlayed(m: Match, m': Match) {
    && SameStage(m, m') && m'.queue == m.queue && m'.timeStart == m.timeStart
    && forall k :: 0 <= k < |m.seats| ==> m'.seats[k].isBot == m.seats[k].isBot
  }

  lemma StaysStuck(m: Match, m': Match)
    requires Stuck(m) && NobodyPlayed(m, m')
    ensures Stuck(m')
  {
    SameInTrick(m, m');
  }

  lemma JoinPlaysNothing(m: Match, uid: int)
    requires Stuck(m) && uid > NO_WINNER
    ensures NobodyPlayed(m, m.TryJoin(uid, false, 1))
  {
    JoinKeepsSeating(m, uid, false, 1);
  }

  lemma LeavePlaysNothing(m: Match, uid: int)
    requires Stuck(m) && !m.IsPlayer(uid)
    ensures NobodyPlayed(m, m.UserLeave(uid))
  {
    OutsiderLeavesNoSeat(m, uid);
  }

  lemma ClaimPlaysNothing(m: Match, uid: int, i: nat, sets: nat)
    requires i < |m.seats|
    ensures NobodyPlayed(m, m.NapoliPaid(uid, i, sets))
  {
  }

  lemma NapoliPlaysNothing(m: Match, uid: int)
    ensures NobodyPlayed(m, m.Napoli(uid))
  {
    var i := SeatWithUid(m.seats, uid);
    if i >= 0 { ClaimPlaysNothing(m, uid, i, NapoliSets(m.seats[i].cards)); }
  }

  lemma ReturnPlaysNothing(m: Match, uid: int)
    ensures NobodyPlayed(m, m.ReturnToTable(uid))
  {
  }

  lemma OutOfTurn(m: Match, uid: int, card: int, now: int)
    requires Stuck(m) && uid != m.seats[m.turn].uid
    ensures m.PlayCard(uid, card, false, now).0 == m
  {
  }

  lemma HeldPlaysNothing(m: Match)
    requires Stuck(m)
    ensures NobodyPlayed(m, m) && NobodyPlayed(m, m.Held(m.turn, false))
  {
  }

  /** Packets of the others: they watch, register to leave, come back, claim, or play out of turn. */
  lemma PacketPlaysNothing(m: Match, now: int, e: Event)
    requires Inv(m) && Stuck(m) && !e.Elapse? && Admissible(m, now, e)
    requires e.Play? ==> e.uid != m.seats[m.turn].uid
    ensures NobodyPlayed(m, Handle(m, now, e))
  {
    HeldPlaysNothing(m);
    match e
    case Join(uid) => JoinPlaysNothing(m, uid);
    case EnterSeat(uid, _) => JoinPlaysNothing(m, uid);
    case LeaveTable(uid, _) => if !m.IsPlayer(uid) { LeavePlaysNothing(m, uid); }
    case Drop(uid) => if !m.IsPlayer(uid) { LeavePlaysNothing(m, uid); }
    case Return(uid) => ReturnPlaysNothing(m, uid);
    case Play(uid, card) => OutOfTurn(m, uid, card, now);
    case ClaimNapoli(uid) => NapoliPlaysNothing(m, uid);
  }

  lemma TickPlaysNothing(m: Match, tick: Tick)
    requires Stuck(m) && tick.now - m.timeStart <= TIME_MATCH_MAXIMUM
    ensures NobodyPlayed(m, Loop(m, tick))
  {
    StuckIsStalled(m);
    assert RunDue(m, tick.now, tick.shuffled) == m;
    StalledTurns(m, 0, tick);
    HeldPlaysNothing(m);
  }

  lemma PlayedNothingTwice(m: Match, m': Match, m'': Match)
    requires NobodyPlayed(m, m') && NobodyPlayed(m', m'')
    ensures NobodyPlayed(m, m'')
  {
  }

  lemma AtPlaysNothing(m: Match, now: int)
    requires Stuck(m)
    ensures NobodyPlayed(m, At(m, now)) && Stuck(At(m, now))
  {
    StaysStuck(m, At(m, now));
  }

  lemma StuckStep(m: Match, now: int, e: Event)
    requires Inv(m) && Stuck(m) && Admissible(m, now, e)
    requires e.Play? ==> e.uid != m.seats[m.turn].uid
    requires e.Elapse? ==> now - m.timeStart <= TIME_MATCH_MAXIMUM
    ensures NobodyPlayed(m, Step(m, now, e))
  {
    AtPlaysNothing(m, now);
    ClockKeepsInv(m, now);
    if e.Elapse? { TickPlaysNothing(At(m, now), e.tick); } else { PacketPlaysNothing(At(m, now), now, e); }
    PlayedNothingTwice(m, At(m, now), Step(m, now, e));
  }

  /** Events without a play of the bot and without a tick past the hour. */
  ghost predicate WithoutThem(events: seq<(int, Event)>, bot: int, timeStart: int) {
    forall e :: e in events ==>
      (e.1.Play? ==> e.1.uid != bot) && (e.1.Elapse? ==> e.0 - timeStart <= TIME_MATCH_MAXIMUM)
  }

  lemma NextRestricted(events: seq<(int, Event)>, bot: int, timeStart: int)
    requires events != [] && WithoutThem(events, bot, timeStart)
    ensures WithoutThem(events[1..], bot, timeStart)
  {
    assert forall e :: e in events[1..] ==> e in events;
  }

  /**
   Once a bot is stuck, no admissible run within the game's hour plays a card: not of any packets but
   the bot's own, which it does not send, nor of any ticks.
   */
  lemma {:induction false} StuckBotStopsTheGame(m: Match, events: seq<(int, Event)>)
    requires Inv(m) && Stuck(m) && AdmissibleRun(m, events)
    requires WithoutThem(events, m.seats[m.turn].uid, m.timeStart)
    ensures NobodyPlayed(m, Run(m, events)) && Stuck(Run(m, events))
    decreases |events|
  {
    if events != [] {
      assert events[0] in events;
      var m' := Step(m, events[0].0, events[0].1);
      StuckStep(m, events[0].0, events[0].1);
      StaysStuck(m, m');
      StepKeepsInv(m, events[0].0, events[0].1);
      NextRestricted(events, m.seats[m.turn].uid, m.timeStart);
      StuckBotStopsTheGame(m', events[1..]);
      PlayedNothingTwice(m, m', Run(m, events));
    }
  }

  // ----- a deal that gets there -----

  const BOT := 1_000_000

  /** `n` cards of one suit in a row. */
  function Stride(a: nat, n: nat): (s: seq<int>)
    ensures |s| == n && forall k :: 0 <= k < n ==> s[k] == a + 4 * k
  {
    seq(n, k => a + 4 * k)
  }

  predicate InStride(a: nat, n: nat, c: int) {
    a <= c < a + 4 * n && c % 4 == a % 4
  }

  lemma OneMoreCounts(s: seq<int>, x: int, c: int)
    ensures multiset(s + [x])[c] == multiset(s)[c] + if x == c then 1 else 0
  {
  }

  lemma {:induction false} StrideCount(a: nat, n: nat, c: int)
    ensures multiset(Stride(a, n))[c] == if InStride(a, n, c) then 1 else 0
  {
    if n > 0 {
      StrideCount(a, n - 1, c);
      OneMoreCounts(Stride(a, n - 1), a + 4 * (n - 1), c);
      assert Stride(a, n) == Stride(a, n - 1) + [a + 4 * (n - 1)];
    }
  }

  /** Seat 0 has no card of suit 1; seat 1, the bot, has one card of suit 0 and otherwise suits 2 and 1. */
  const HAND_0: seq<int> := Stride(12, 1) + Stride(2, 3) + Stride(16, 3) + Stride(3, 3)
  const HAND_1: seq<int> := Stride(0, 1) + Stride(14, 4) + Stride(1, 5)
  const HAND_2: seq<int> := Stride(4, 1) + Stride(28, 3) + Stride(30, 3) + Stride(31, 3)
  const HAND_3: seq<int> := Stride(8, 1) + Stride(21, 5) + Stride(15, 4)
  const STALL_DEAL: seq<int> := HAND_0 + HAND_1 + HAND_2 + HAND_3

  function One(b: bool): nat {
    if b then 1 else 0
  }

  lemma HandCounts(c: int)
    ensures multiset(HAND_0)[c] == One(c == 12) + One(InStride(2, 3, c)) + One(InStride(16, 3, c)) + One(InStride(3, 3, c))
    ensures multiset(HAND_1)[c] == One(c == 0) + One(InStride(14, 4, c)) + One(InStride(1, 5, c))
    ensures multiset(HAND_2)[c] == One(c == 4) + One(InStride(28, 3, c)) + One(InStride(30, 3, c)) + One(InStride(31, 3, c))
    ensures multiset(HAND_3)[c] == One(c == 8) + One(InStride(21, 5, c)) + One(InStride(15, 4, c))
  {
    StrideCount(12, 1, c); StrideCount(2, 3, c); StrideCount(16, 3, c); StrideCount(3, 3, c);
    StrideCount(0, 1, c); StrideCount(14, 4, c); StrideCount(1, 5, c);
    StrideCount(4, 1, c); StrideCount(28, 3, c); StrideCount(30, 3, c); StrideCount(31, 3, c);
    StrideCount(8, 1, c); StrideCount(21, 5, c); StrideCount(15, 4, c);
  }

  /** Suit by suit, each card is in one place. */
  lemma EachOnce(c: int)
    ensures One(c == 12) + One(c == 0) + One(c == 4) + One(InStride(28, 3, c)) + One(c == 8) + One(InStride(16, 3, c))
            == One(c % 4 == 0 && IsCard(c))
    ensures One(InStride(1, 5, c)) + One(InStride(21, 5, c)) == One(c % 4 == 1 && IsCard(c))
    ensures One(InStride(2, 3, c)) + One(InStride(14, 4, c)) + One(InStride(30, 3, c)) == One(c % 4 == 2 && IsCard(c))
    ensures One(InStride(3, 3, c)) + One(InStride(31, 3, c)) + One(InStride(15, 4, c)) == One(c % 4 == 3 && IsCard(c))
  {
  }

  lemma DealCount(c: int)
    ensures multiset(STALL_DEAL)[c] == multiset(HAND_0)[c] + multiset(HAND_1)[c] + multiset(HAND_2)[c] + multiset(HAND_3)[c]
  {
  }

  lemma DealtOnce(c: int)
    ensures multiset(STALL_DEAL)[c] == if IsCard(c) then 1 else 0
  {
    DealCount(c);
    HandCounts(c);
    EachOnce(c);
  }

  lemma StallDealIsShuffled()
    ensures Shuffled(STALL_DEAL)
  {
    forall c ensures multiset(STALL_DEAL)[c] == multiset(FULL_DECK)[c] {
      DealtOnce(c);
      DeckCopies(c);
    }
  }
}
