/**
 The authoritative Tressette match: the state a match object holds and what each packet,
 delayed task and tick does to it. Every handler is a function of the whole state; the class
 `TressetteServer.Tressette` runs them step by step, and `MatchRuns` follows whole runs.

 Times are milliseconds. Every entry point gets the one clock reading it works with. Shuffles,
 expired turn timers and the bot handed out by the pool come in with the tick.
 */
module TressetteMatch {
  import opened Options
  import opened CardLists
  import opened TressetteCards
  import opened DelayedTasks
  import Ai = TressetteBot

  const EMPTY_UID := -1
  /** `last_won_uid_` before the first trick. */
  const NO_WINNER := 0
  const NO_TEAM := -1
  const HAND_SIZE := 10
  const SOLO := 2
  const DUO := 4
  const TIME_MATCH_MAXIMUM := 3_600_000
  const TIME_PREPARE_START := 3_000

  datatype Phase = Waiting | PreparingStart | Playing | Ended

  datatype Task = AnnounceEnd | KickLeavers | PrepareNext | NewRound | DealCards | NewHand | DrawCards

  datatype PlayReply = Ignored | InvalidSuit | InvalidCard | Accepted

  datatype Seat = Seat(
    uid: int, team: int, isBot: bool, depth: int, isAuto: bool, onTurn: bool,
    cards: seq<int>, points: int, lastTrick: int)
  {
    predicate Empty() {
      uid == EMPTY_UID
    }
  }

  /** `clear()`: the seat forgets its team as well. */
  const VACANT := Seat(EMPTY_UID, NO_TEAM, false, 1, false, false, [], 0, 0)

  /** What the proofs remember about a match; no handler reads it. */
  datatype Ledger = Ledger(
    won: seq<int>,            // cards taken in tricks this round, in order
    overwritten: seq<int>,    // cards replaced in their slot by a later play
    napoliSets: nat,          // napoli sets paid this round
    lastTrickPaid: bool,      // the last-trick bonus was paid this round
    base: int,                // sum of all points when the round began
    early: bool,              // a play was accepted this game before the round's first hand was opened
    clock: int,               // latest clock reading
    endedAt: int,             // reading at the last end of a game
    idleSince: int)           // reading at which the last ended game was left behind

  /** What a tick brings from outside. */
  datatype Tick = Tick(
    now: int,
    shuffled: seq<int>,       // the permutation used if cards are dealt
    expired: set<int>,        // seats whose turn timer has run out
    botDue: bool,             // the bot interval has elapsed
    bot: Option<int>,         // what the bot pool would hand out
    botDepth: int)            // and its search depth

  // ----- seats -----

  function SeatWithUid(seats: seq<Seat>, uid: int): (i: int)
    ensures i == -1 || (0 <= i < |seats| && seats[i].uid == uid)
  {
    if seats == [] then -1
    else if seats[0].uid == uid then 0
    else
      var i := SeatWithUid(seats[1..], uid);
      if i < 0 then -1 else i + 1
  }

  function FirstVacant(seats: seq<Seat>): int {
    SeatWithUid(seats, EMPTY_UID)
  }

  predicate Full(seats: seq<Seat>) {
    forall i :: 0 <= i < |seats| ==> !seats[i].Empty()
  }

  predicate HasSuit(cards: seq<int>, suit: int) {
    exists c :: c in cards && Suit(c) == suit
  }

  function SumPoints(seats: seq<Seat>): int {
    if seats == [] then 0 else SumPoints(seats[..|seats| - 1]) + seats[|seats| - 1].points
  }

  function TeamScore(seats: seq<Seat>, team: int): int {
    if seats == [] then 0
    else
      TeamScore(seats[..|seats| - 1], team) +
      if seats[|seats| - 1].team == team then seats[|seats| - 1].points else 0
  }

  function Vacate(seats: seq<Seat>, uids: set<int>): (r: seq<Seat>)
    ensures |r| == |seats|
    ensures forall i :: 0 <= i < |seats| ==>
              r[i] == if !seats[i].Empty() && seats[i].uid in uids then VACANT else seats[i]
  {
    seq(|seats|, i requires 0 <= i < |seats| =>
      if !seats[i].Empty() && seats[i].uid in uids then VACANT else seats[i])
  }

  /** Bots, and users whose seat plays by itself. */
  function SelfPlaying(seats: seq<Seat>): set<int> {
    set i | 0 <= i < |seats| && !seats[i].Empty() && (seats[i].isBot || seats[i].isAuto) :: seats[i].uid
  }

  function Trim(points: int): int {
    points - points % 3
  }

  function TrimSeats(seats: seq<Seat>, teams: set<int>): (r: seq<Seat>)
    ensures |r| == |seats|
    ensures forall i :: 0 <= i < |seats| ==>
              r[i] == if seats[i].team in teams && !seats[i].Empty()
                      then seats[i].(points := Trim(seats[i].points)) else seats[i]
  {
    seq(|seats|, i requires 0 <= i < |seats| =>
      if seats[i].team in teams && !seats[i].Empty()
      then seats[i].(points := Trim(seats[i].points)) else seats[i])
  }

  function OccupiedTeamScore(seats: seq<Seat>, team: int): int {
    if seats == [] then 0
    else
      var last := seats[|seats| - 1];
      OccupiedTeamScore(seats[..|seats| - 1], team) + if last.team == team && !last.Empty() then last.points else 0
  }

  /** The point remainders dropped when a round begins. */
  function Trimmed(seats: seq<Seat>, playerMode: int): (r: seq<Seat>)
    ensures |r| == |seats|
    ensures forall i :: 0 <= i < |seats| ==>
              r[i] == seats[i] || r[i] == seats[i].(points := Trim(seats[i].points))
  {
    if playerMode == SOLO then
      seq(|seats|, i requires 0 <= i < |seats| => seats[i].(points := Trim(seats[i].points)))
    else
      var one := if OccupiedTeamScore(seats, 0) % 3 > 0 then TrimSeats(seats, {0}) else seats;
      if OccupiedTeamScore(one, 1) % 3 > 0 then TrimSeats(one, {1}) else one
  }

  function ResetSeats(seats: seq<Seat>): (r: seq<Seat>)
    ensures |r| == |seats|
    ensures forall i :: 0 <= i < |seats| ==>
              r[i] == seats[i].(points := 0, lastTrick := 0, isAuto := false, onTurn := false, cards := [])
  {
    seq(|seats|, i requires 0 <= i < |seats| =>
      seats[i].(points := 0, lastTrick := 0, isAuto := false, onTurn := false, cards := []))
  }

  function DealtSeats(seats: seq<Seat>, shuffled: seq<int>): (r: seq<Seat>)
    requires |shuffled| >= HAND_SIZE * |seats|
    ensures |r| == |seats|
    ensures forall i :: 0 <= i < |seats| ==>
              r[i] == seats[i].(cards := shuffled[HAND_SIZE * i..HAND_SIZE * i + HAND_SIZE])
  {
    seq(|seats|, i requires 0 <= i < |seats| =>
      seats[i].(cards := shuffled[HAND_SIZE * i..HAND_SIZE * i + HAND_SIZE]))
  }

  /** Seats from `i` on take one card each from the back of the deck while there are any. */
  function DrawFrom(seats: seq<Seat>, deck: seq<int>, i: nat): (r: (seq<Seat>, seq<int>))
    requires i <= |seats|
    ensures |r.0| == |seats|
    decreases |seats| - i
  {
    if i == |seats| || deck == [] then (seats, deck)
    else
      var n := |deck| - 1;
      DrawFrom(seats[i := seats[i].(cards := seats[i].cards + [deck[n]])], deck[..n], i + 1)
  }

  /** 1 if the hand holds ace, two and three of the suit. */
  function NapoliIn(hand: seq<int>, suit: nat): nat {
    if suit in hand && suit + 4 in hand && suit + 8 in hand then 1 else 0
  }

  function NapoliSets(hand: seq<int>): (n: nat)
    ensures n <= 4
  {
    NapoliIn(hand, 0) + NapoliIn(hand, 1) + NapoliIn(hand, 2) + NapoliIn(hand, 3)
  }

  function FirstIn(cards: seq<int>, suit: int): (card: int)
    requires HasSuit(cards, suit)
    ensures card in cards && Suit(card) == suit
  {
    if Suit(cards[0]) == suit then cards[0]
    else
      assert HasSuit(cards[1..], suit) by {
        var c :| c in cards && Suit(c) == suit;
        assert c in cards[1..];
      }
      FirstIn(cards[1..], suit)
  }

  function FirstOfSuit(cards: seq<int>, suit: int): int
    requires cards != []
  {
    if HasSuit(cards, suit) then FirstIn(cards, suit) else cards[0]
  }

  function FirstFilled(table: seq<int>): (card: int)
    ensures card == NO_CARD || card in table
  {
    if table == [] then NO_CARD
    else if table[0] != NO_CARD then table[0]
    else FirstFilled(table[1..])
  }

  function ClearTable(n: nat): (t: seq<int>)
    ensures |t| == n && forall i :: 0 <= i < n ==> t[i] == NO_CARD
  {
    seq(n, i => NO_CARD)
  }

  /** The rules the server hands to its search bot. */
  const BOT_RULES: Ai.Rules := Ai.Rules(
    card => Suit(card), card => Value(card), (a, b) => if Strength(a) >= Strength(b) then a else b)

  // ----- the match -----

  datatype Match = Match(
    playerMode: nat, pointMode: int, phase: Phase, seats: seq<Seat>, viewers: set<int>, leavers: set<int>,
    table: seq<int>, deck: seq<int>, turn: int, suit: int, curRound: int, handInRound: int,
    teamScore1: int, teamScore2: int, lastWon: int, winTeam: int, napoli: set<int>, inGame: bool,
    timeStart: int, queue: Queue<Task>, ledger: Ledger)
  {
    function PointToWin(): int {
      pointMode * 3
    }

    function FindPlayer(uid: int): (i: int)
      ensures i == -1 || (0 <= i < |seats| && seats[i].uid == uid && !seats[i].Empty())
    {
      if uid == EMPTY_UID then -1 else SeatWithUid(seats, uid)
    }

    predicate IsPlayer(uid: int) {
      FindPlayer(uid) >= 0
    }

    predicate HasUser(uid: int) {
      IsPlayer(uid) || uid in viewers
    }

    function PushAfter(now: int, delayMs: int, task: Task): Match {
      this.(queue := queue.Push(now + delayMs, task))
    }

    // ----- joining and leaving -----

    function TryJoin(uid: int, isBot: bool, depth: int): Match {
      if IsPlayer(uid) then this
      else
        var slot := FirstVacant(seats);
        if slot >= 0 then
          var seat := seats[slot];
          this.(viewers := viewers - {uid},
                seats := seats[slot := seat.(uid := uid, isBot := isBot, depth := if isBot then depth else seat.depth)])
        else this.(viewers := viewers + {uid})
    }

    function Here(uids: set<int>): (here: set<int>)
      ensures forall uid :: uid in here <==> uid in uids && HasUser(uid)
    {
      set uid | uid in uids && HasUser(uid)
    }

    function Left(gone: set<int>): Match {
      this.(seats := Vacate(seats, gone), viewers := viewers - gone, leavers := leavers - gone,
            phase := if phase.PreparingStart? then Waiting else phase)
    }

    /** Everybody in `uids` who is here leaves. */
    function LeaveAll(uids: set<int>): Match {
      if Here(uids) == {} then this else Left(Here(uids))
    }

    function UserLeave(uid: int): Match {
      LeaveAll({uid})
    }

    function RegisterLeave(uid: int, status: int): Match {
      if inGame && IsPlayer(uid) then
        this.(leavers := if status == 0 then leavers + {uid} else leavers - {uid})
      else UserLeave(uid)
    }

    function Disconnect(uid: int): Match {
      if !HasUser(uid) || (inGame && IsPlayer(uid)) then this else UserLeave(uid)
    }

    function ReturnToTable(uid: int): Match {
      var i := FindPlayer(uid);
      if i < 0 then this else this.(seats := seats[i := seats[i].(isAuto := false)])
    }

    function ViewerEnter(uid: int, seatIdx: int): Match {
      if uid !in viewers || seatIdx < 0 || seatIdx >= playerMode then this else TryJoin(uid, false, 1)
    }

    // ----- one game -----

    function PrepareStart(now: int): Match {
      this.(phase := PreparingStart, timeStart := now + TIME_PREPARE_START)
    }

    /** The table swept clean, seat 0 on turn. */
    function Swept(): Match {
      this.(turn := 0, table := ClearTable(|seats|), deck := [], suit := -1, curRound := 0, handInRound := -1)
    }

    /** No scores, no winner, nobody leaving. */
    function Zeroed(blank: seq<Seat>): Match {
      this.(leavers := {}, teamScore1 := 0, teamScore2 := 0, lastWon := NO_WINNER, seats := blank,
            ledger := ledger.(won := [], overwritten := [], napoliSets := 0, lastTrickPaid := false, base := 0, early := false))
    }

    /** A new game with everything reset and nothing dealt. */
    function Reset(now: int): Match {
      Swept().Zeroed(ResetSeats(seats)).(phase := Playing, timeStart := now, inGame := true)
    }

    function StartGame(now: int): Match {
      Reset(now).PushAfter(now, 1_000, NewRound)
    }

    function Closed(now: int): Match {
      this.(phase := Ended, timeStart := -1, inGame := false,
            winTeam := if teamScore1 > teamScore2 then 0 else 1,
            ledger := ledger.(endedAt := now))
    }

    function EndGame(now: int): Match {
      Closed(now).PushAfter(now, 2_000, AnnounceEnd).PushAfter(now, 6_000, KickLeavers).PushAfter(now, 7_000, PrepareNext)
    }

    function NextRound(): Match {
      RoundWith(Trimmed(seats, playerMode))
    }

    function RoundWith(trimmed: seq<Seat>): Match {
      this.(curRound := curRound + 1, napoli := {}, handInRound := -1, seats := trimmed,
            ledger := ledger.(won := [], overwritten := [], napoliSets := 0, lastTrickPaid := false,
                              base := SumPoints(trimmed)))
    }

    function StartRound(now: int): Match {
      NextRound().PushAfter(now, 1_000, DealCards).PushAfter(now, 2_000, NewHand)
    }

    function Deal(shuffled: seq<int>): Match
      requires |shuffled| >= HAND_SIZE * |seats|
    {
      this.(seats := DealtSeats(seats, shuffled), deck := shuffled[HAND_SIZE * |seats|..])
    }

    /** The seat that leads the next hand. */
    function Leader(): int {
      if lastWon == NO_WINNER || FindPlayer(lastWon) < 0 then 0 else FindPlayer(lastWon)
    }

    function OpenHand(): Match {
      var m := this.(suit := -1, handInRound := handInRound + 1, turn := Leader());
      if Leader() >= |seats| then m
      else m.(seats := seats[Leader() := seats[Leader()].(onTurn := true)])
    }

    function Draw(): Match {
      var (s, d) := DrawFrom(seats, deck, 0);
      this.(seats := s, deck := d)
    }

    predicate ReachedTarget() {
      TeamScore(seats, 0) >= PointToWin() || TeamScore(seats, 1) >= PointToWin()
    }

    /** The trick is complete: pay the winner, then end the game, the round or the hand. */
    function EndHand(now: int): Match {
      var winner := SlotOf(table, BestOfSuit(table, suit, |table|));
      if winner < 0 || winner >= |seats| then this
      else Paid(winner).AfterHand(now, deck == [] && seats[0].cards == [])
    }

    function Paid(winner: int): Match
      requires 0 <= winner < |seats|
    {
      var bonus := if deck == [] && seats[0].cards == [] then 3 else 0;
      var seat := seats[winner];
      this.(lastWon := seat.uid, table := ClearTable(|table|),
            seats := seats[winner := seat.(points := seat.points + ValueOf(table) + bonus, lastTrick := seat.lastTrick + bonus)],
            ledger := ledger.(won := ledger.won + table, lastTrickPaid := ledger.lastTrickPaid || bonus == 3))
    }

    function Scored(): Match {
      this.(teamScore1 := TeamScore(seats, 0), teamScore2 := TeamScore(seats, 1))
    }

    function AfterHand(now: int, endRound: bool): Match {
      if ReachedTarget() then Scored().EndGame(now)
      else if endRound then Scored().PushAfter(now, 4_000, NewRound)
      else if deck != [] then Scored().PushAfter(now, 2_000, DrawCards).PushAfter(now, 5_500, NewHand)
      else Scored().PushAfter(now, 2_000, NewHand)
    }

    /** The seat on turn keeps its automatic mark only when it plays by itself. */
    function Held(i: int, isAuto: bool): Match
      requires 0 <= i < |seats|
    {
      this.(seats := seats[i := if isAuto then seats[i] else seats[i].(isAuto := false)])
    }

    /** A legal card goes to the table. */
    function Placed(i: int, card: int): Match
      requires 0 <= i < |seats| == |table|
    {
      this.(seats := seats[i := seats[i].(cards := Without(seats[i].cards, card), onTurn := false)],
            suit := if suit == -1 then Suit(card) else suit,
            table := table[i := card],
            ledger := ledger.(overwritten := if table[i] == NO_CARD then ledger.overwritten else ledger.overwritten + [table[i]],
                              early := ledger.early || handInRound == -1))
    }

    function PassTurn(): Match {
      var next := if turn + 1 == playerMode then 0 else turn + 1;
      this.(turn := next, seats := if 0 <= next < |seats| then seats[next := seats[next].(onTurn := true)] else seats)
    }

    function Accept(i: int, card: int, now: int): Match
      requires 0 <= i < |seats| == |table|
    {
      var m := Placed(i, card);
      if NO_CARD !in m.table then m.(turn := -1).EndHand(now) else m.PassTurn()
    }

    function PlayCard(uid: int, card: int, isAuto: bool, now: int): (r: (Match, PlayReply)) {
      var i := FindPlayer(uid);
      if !phase.Playing? || NO_CARD !in table || i < 0 || turn != i || |table| != |seats| then (this, Ignored)
      else if suit != -1 && Suit(card) != suit && HasSuit(seats[i].cards, suit) then (Held(i, isAuto), InvalidSuit)
      else if card !in seats[i].cards then (Held(i, isAuto), InvalidCard)
      else (Held(i, isAuto).Accept(i, card, now), Accepted)
    }

    function NapoliPaid(uid: int, i: nat, sets: nat): Match
      requires i < |seats|
    {
      this.(napoli := napoli + {uid},
            seats := seats[i := seats[i].(points := seats[i].points + 3 * sets)],
            ledger := ledger.(napoliSets := ledger.napoliSets + sets))
    }

    function Napoli(uid: int): Match {
      var i := SeatWithUid(seats, uid);
      if uid in napoli || i < 0 || NapoliSets(seats[i].cards) == 0 then this
      else NapoliPaid(uid, i, NapoliSets(seats[i].cards))
    }

    // ----- automatic seats -----

    function AutoPlay(i: int, now: int): Match
      requires 0 <= i < |seats|
    {
      var m := this.(seats := seats[i := seats[i].(isAuto := true)]);
      if seats[i].cards == [] then m
      else m.PlayCard(seats[i].uid, FirstOfSuit(seats[i].cards, suit), true, now).0
    }

    /** The first opposing seat: not this player, not its team, not empty. */
    function Opponent(i: int): Option<Seat>
      requires 0 <= i < |seats|
    {
      OpponentFrom(i, 0)
    }

    function OpponentFrom(i: int, j: nat): Option<Seat>
      requires 0 <= i < |seats| && j <= |seats|
      decreases |seats| - j
    {
      if j == |seats| then None
      else if seats[j].uid == seats[i].uid || seats[j].team == seats[i].team || seats[j].Empty() then OpponentFrom(i, j + 1)
      else Some(seats[j])
    }

    /** The position the bot in seat `i` searches. */
    function BotView(i: int): Ai.Position
      requires 0 <= i < |seats|
    {
      var foe := Opponent(i);
      Ai.Position(if suit == -1 then Ai.Bot else Ai.Player,
                  seats[i].points, if foe.Some? then foe.value.points else 0,
                  seats[i].cards, if foe.Some? then foe.value.cards else [], [], [])
    }

    function BotLead(): Option<int> {
      if suit == -1 || FirstFilled(table) == NO_CARD then None else Some(FirstFilled(table))
    }

    /** Following suit, the bot is given `point_mode`, not the target score. */
    function BotGame(): Ai.Game {
      Ai.Game(BOT_RULES, if suit == -1 then PointToWin() else pointMode)
    }

    function BotCard(i: int): int
      requires 0 <= i < |seats| && seats[i].cards != []
    {
      var move := BotGame().Plain(BotView(i), BotLead(), seats[i].depth).bestMove;
      if move == NO_CARD then seats[i].cards[0] else move
    }

    function BotPlay(i: int, now: int): Match
      requires 0 <= i < |seats|
    {
      if seats[i].cards == [] then this else PlayCard(seats[i].uid, BotCard(i), false, now).0
    }

    function SeatTurn(i: int, now: int, expired: set<int>): Match
      requires 0 <= i < |seats|
    {
      if seats[i].Empty() || !seats[i].onTurn || i !in expired then this
      else if seats[i].isBot then BotPlay(i, now)
      else AutoPlay(i, now)
    }

    // ----- delayed tasks and ticks -----

    function RunTask(task: Task, now: int, shuffled: seq<int>): Match {
      match task
      case AnnounceEnd => this
      case KickLeavers =>
        LeaveAll(leavers + SelfPlaying(seats))
      case PrepareNext =>
        var m := this.(ledger := ledger.(idleSince := now));
        if Full(seats) then m.PrepareStart(now) else m.(phase := Waiting)
      case NewRound => StartRound(now)
      case DealCards => if |shuffled| >= HAND_SIZE * |seats| then Deal(shuffled) else this
      case NewHand => OpenHand()
      case DrawCards => Draw()
    }

    predicate HasRealPlayers() {
      viewers != {} || exists i :: 0 <= i < |seats| && !seats[i].Empty() && !seats[i].isBot
    }

    function GenerateBot(tick: Tick): Match {
      if HasRealPlayers() && tick.botDue && !Full(seats) && tick.bot.Some?
      then TryJoin(tick.bot.value, true, tick.botDepth) else this
    }

    /** What a tick does once the due tasks have run. */
    function AfterTasks(tick: Tick): Match {
      match phase
      case Playing =>
        if tick.now - timeStart > TIME_MATCH_MAXIMUM then EndGame(tick.now) else AllTurns(0, tick)
      case PreparingStart =>
        if timeStart != -1 && tick.now > timeStart then
          if Full(seats) then StartGame(tick.now) else this.(phase := Waiting, timeStart := -1)
        else this
      case Waiting => if Full(seats) then PrepareStart(tick.now) else GenerateBot(tick)
      case Ended => this
    }

    function AllTurns(i: nat, tick: Tick): Match
      requires i <= |seats|
      decreases |seats| - i
    {
      if i == |seats| then this
      else
        var m := SeatTurn(i, tick.now, tick.expired);
        if |m.seats| == |seats| then m.AllTurns(i + 1, tick) else m
    }
  }
}
