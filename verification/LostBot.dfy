/**
 How long every bot in use has a seat: exactly as long as the login service has not counted into the
 uids of the bots. Beyond, four tables fill with a user and a bot each, and at the fifth waits the user
 whose uid is the last free bot's.
 */
module LostBot {
  import opened Options
  import opened BotPool
  import opened Logins
  import opened Registry
  import opened RegistryIndex
  import opened RegistryRuns

  function Human(k: int): int {
    FIRST_LOGIN_UID + k
  }

  /** The pool hands out its uids from the last to the first. */
  function BotNo(k: int): int {
    BOT_START_UID + BOTS - 1 - k
  }

  const ONLINE: set<int> := {Human(0), Human(1), Human(2), Human(3), BOT_START_UID}

  function Ids(n: nat): (ids: seq<int>)
    ensures |ids| == n && forall j :: 0 <= j < n ==> ids[j] == FIRST_MATCH_ID + j
  {
    seq(n, j => FIRST_MATCH_ID + j)
  }

  const GOES_ON := Outcome([], false, Playing, true)

  function OutcomeOf(id: int, k: nat, o: Outcome): Outcome {
    if id == FIRST_MATCH_ID + k then o else GOES_ON
  }

  /** Every match goes on, the newest one with this outcome. */
  function TickWith(k: nat, o: Outcome): Event {
    Tick(Ids(k + 1), map id | FIRST_MATCH_ID <= id <= FIRST_MATCH_ID + k :: OutcomeOf(id, k, o), ONLINE)
  }

  // ----- the tables so far -----

  predicate InGame(t: Table, j: int) {
    t.seats == [Taken(Human(j), false), Taken(BotNo(j), true)] && t.state.Playing? && t.inGame && !t.doomed
  }

  /** The first `k` matches each play with a user and a bot. */
  ghost predicate Row(w: World, k: nat) {
    forall id :: FIRST_MATCH_ID <= id < FIRST_MATCH_ID + k ==> id in w.matches && InGame(w.matches[id], id - FIRST_MATCH_ID)
  }

  ghost predicate Calm(w: World, k: nat, left: nat) {
    && w.running && w.pending == {} && w.nextId == FIRST_MATCH_ID + k && w.pool.available == FullPool(left)
    && (forall id :: id in w.matches <==> FIRST_MATCH_ID <= id < FIRST_MATCH_ID + k)
    && forall uid :: uid in w.index ==> uid < FIRST_LOGIN_UID + k
  }

  ghost predicate Busy(w: World, k: nat) {
    k <= 4 && Calm(w, k, BOTS - k) && Row(w, k)
  }

  /** One more match, with `uid` in its first seat. */
  ghost predicate Newest(w: World, k: nat, left: nat, uid: int, other: Seat, state: MatchState) {
    && w.running && w.pending == {} && w.nextId == FIRST_MATCH_ID + k + 1 && w.pool.available == FullPool(left) && Row(w, k)
    && (forall id :: id in w.matches <==> FIRST_MATCH_ID <= id <= FIRST_MATCH_ID + k)
    && (forall u :: u in w.index ==> u < FIRST_LOGIN_UID + k || u == uid)
    && var t := w.matches[FIRST_MATCH_ID + k];
       t.seats == [Taken(uid, false), other] && t.state == state && (t.inGame <==> state.Playing?) && !t.doomed
  }

  // ----- a quick play -----

  lemma {:induction false} NoneSuits(w: World, order: seq<int>)
    requires forall id :: id in order ==> id in w.matches && !w.matches[id].state.Waiting?
    ensures w.Suitable(order) == None
  {
    if order != [] {
      assert order[0] in order;
      NoneSuits(w, order[1..]);
    }
  }

  lemma NewTableFor(w: World, k: nat, uid: int)
    requires Busy(w, k) && uid >= FIRST_LOGIN_UID + k
    ensures Newest(w.Step(QuickPlayAsked(uid, Ids(k))), k, BOTS - k, uid, Free, Waiting)
  {
    forall id | id in Ids(k) ensures id in w.matches && !w.matches[id].state.Waiting? {
      var j :| 0 <= j < k && Ids(k)[j] == id;
      assert InGame(w.matches[FIRST_MATCH_ID + j], j);
    }
    NoneSuits(w, Ids(k));
    var made := w.CreateMatch(SOLO, false);
    var id := FIRST_MATCH_ID + k;
    assert made.matches[id].seats == [Free, Free];
    var joined := made.UserJoinMatch(id, uid);
    assert joined.matches[id].seats == [Taken(uid, false), Free];
    assert w.Step(QuickPlayAsked(uid, Ids(k))) == joined;
  }

  // ----- a tick -----

  lemma IdleVisit(w: World, id: int, j: nat)
    requires id in w.matches && InGame(w.matches[id], j) && j < 4
    ensures w.Visit(id, GOES_ON, ONLINE) == w
  {
    var t := w.matches[id];
    assert t.(state := Playing, inGame := true) == t;
    assert w.matches[id := t] == w.matches;
    assert t.seats[0].Taken? && !t.seats[0].isBot && t.seats[0].uid == Human(j) && Human(j) in ONLINE;
  }

  /** Only the newest match changes. */
  lemma {:induction false} VisitRow(w: World, k: nat, j: nat, outcomes: map<int, Outcome>)
    requires j <= k <= 4 && Row(w, k)
    requires forall id :: FIRST_MATCH_ID <= id < FIRST_MATCH_ID + k ==> id in outcomes && outcomes[id] == GOES_ON
    requires FIRST_MATCH_ID + k in outcomes
    ensures w.VisitAll(Ids(k + 1)[j..], outcomes, ONLINE) == w.Visit(FIRST_MATCH_ID + k, outcomes[FIRST_MATCH_ID + k], ONLINE)
    decreases k - j
  {
    var ids := Ids(k + 1)[j..];
    assert ids[0] == FIRST_MATCH_ID + j && ids[1..] == Ids(k + 1)[j + 1..];
    if j < k {
      IdleVisit(w, FIRST_MATCH_ID + j, j);
      VisitRow(w, k, j + 1, outcomes);
    } else {
      assert ids[1..] == [];
    }
  }

  lemma NothingToFlush(w: World)
    requires w.pending == {}
    ensures w.Flush() == w
  {
    assert w.People({}) == {};
    assert w.matches - {} == w.matches && w.index - {} == w.index;
  }

  lemma TickIsVisit(w: World, k: nat, o: Outcome)
    requires k <= 4 && Row(w, k) && w.running && w.Visit(FIRST_MATCH_ID + k, o, ONLINE).pending == {}
    ensures w.Step(TickWith(k, o)) == w.Visit(FIRST_MATCH_ID + k, o, ONLINE)
  {
    var outcomes := TickWith(k, o).outcomes;
    VisitRow(w, k, 0, outcomes);
    assert Ids(k + 1)[0..] == Ids(k + 1);
    NothingToFlush(w.Visit(FIRST_MATCH_ID + k, o, ONLINE));
  }

  lemma StateTick(w: World, k: nat, left: nat, uid: int, other: Seat, state: MatchState, next: MatchState)
    requires Newest(w, k, left, uid, other, state) && k <= 4 && uid in ONLINE
    ensures Newest(w.Step(TickWith(k, Outcome([], false, next, next.Playing?))), k, left, uid, other, next)
  {
    var id := FIRST_MATCH_ID + k;
    var o := Outcome([], false, next, next.Playing?);
    var t := w.matches[id].(state := next, inGame := next.Playing?);
    var w' := w.With(id, t);
    assert t.seats[0].Taken? && !t.seats[0].isBot && t.seats[0].uid == uid;
    assert w.Visit(id, o, ONLINE) == w';
    TickIsVisit(w, k, o);
  }

  const WANTS_BOT := Outcome([], true, Waiting, false)
  const GETS_READY := Outcome([], false, PreparingStart, false)

  lemma NextBot(p: Pool, left: nat)
    requires p.available == FullPool(left) && left > 0
    ensures p.Request() == (Some(BOT_START_UID + left - 1), Pool(FullPool(left - 1), p.inUse + {BOT_START_UID + left - 1}))
  {
    FullPoolHolds(left);
    FullPoolHolds(left - 1);
    assert FullPool(left)[..left - 1] == FullPool(left - 1);
  }

  /** The bot the match asks for sits down. */
  lemma BotTick(w: World, k: nat)
    requires k < 4 && Newest(w, k, BOTS - k, Human(k), Free, Waiting)
    ensures Newest(w.Step(TickWith(k, WANTS_BOT)), k, BOTS - k - 1, Human(k), Taken(BotNo(k), true), Waiting)
  {
    var id := FIRST_MATCH_ID + k;
    var moved := w.With(id, w.matches[id].(state := Waiting, inGame := false));
    var t := moved.matches[id];
    NextBot(w.pool, BOTS - k);
    assert t.seats[0].Taken? && !t.seats[0].isBot && t.seats[0].uid == Human(k);
    assert t.seats[1].Free?;
    assert !t.IsPlayer(BotNo(k)) && t.HasPeople() && !t.Full();
    var made := moved.GenerateBot(id);
    assert made.matches[id].seats == [Taken(Human(k), false), Taken(BotNo(k), true)];
    assert made.matches[id].seats[0].uid == Human(k) && Human(k) in ONLINE;
    assert w.Visit(id, WANTS_BOT, ONLINE) == made;
    TickIsVisit(w, k, WANTS_BOT);
  }

  lemma NewestIsBusy(w: World, k: nat)
    requires k < 4 && Newest(w, k, BOTS - k - 1, Human(k), Taken(BotNo(k), true), Playing)
    ensures Busy(w, k + 1)
  {
  }

  // ----- four tables -----

  lemma RunStarts(w: World, e: Event, rest: seq<Event>)
    ensures Run(w, [e] + rest) == Run(w.Step(e), rest)
  {
    assert ([e] + rest)[1..] == rest;
  }

  /** Whoever comes in is one of five users. */
  ghost predicate OfFive(events: seq<Event>) {
    forall e :: e in events && Newcomer(e).Some? ==>
      Newcomer(e).value == BOT_START_UID || FIRST_LOGIN_UID <= Newcomer(e).value < FIRST_LOGIN_UID + 4
  }

  /** A user plays, a bot joins, and the match starts. */
  function TableEvents(k: nat): seq<Event> {
    [QuickPlayAsked(Human(k), Ids(k))] +
    ([TickWith(k, WANTS_BOT)] + ([TickWith(k, GETS_READY)] + [TickWith(k, GOES_ON)]))
  }

  lemma TableFills(w: World, k: nat)
    requires k < 4 && Newest(w, k, BOTS - k, Human(k), Free, Waiting)
    ensures var ready := w.Step(TickWith(k, WANTS_BOT)).Step(TickWith(k, GETS_READY));
            Busy(ready.Step(TickWith(k, GOES_ON)), k + 1)
  {
    BotTick(w, k);
    var joined := w.Step(TickWith(k, WANTS_BOT));
    StateTick(joined, k, BOTS - k - 1, Human(k), Taken(BotNo(k), true), Waiting, PreparingStart);
    var ready := joined.Step(TickWith(k, GETS_READY));
    StateTick(ready, k, BOTS - k - 1, Human(k), Taken(BotNo(k), true), PreparingStart, Playing);
    NewestIsBusy(ready.Step(TickWith(k, GOES_ON)), k);
  }

  lemma RunOfFour(w: World, a: Event, b: Event, c: Event, d: Event)
    ensures Run(w, [a] + ([b] + ([c] + [d]))) == w.Step(a).Step(b).Step(c).Step(d)
  {
    RunStarts(w, a, [b] + ([c] + [d]));
    RunStarts(w.Step(a), b, [c] + [d]);
    RunStarts(w.Step(a).Step(b), c, [d]);
    RunStarts(w.Step(a).Step(b).Step(c), d, []);
    assert [d] + [] == [d];
  }

  lemma OneMoreTable(w: World, k: nat)
    requires Busy(w, k) && k < 4
    ensures Busy(Run(w, TableEvents(k)), k + 1)
  {
    NewTableFor(w, k, Human(k));
    TableFills(w.Step(QuickPlayAsked(Human(k), Ids(k))), k);
    RunOfFour(w, QuickPlayAsked(Human(k), Ids(k)), TickWith(k, WANTS_BOT), TickWith(k, GETS_READY), TickWith(k, GOES_ON));
  }

  lemma {:induction false} RunConcat(w: World, a: seq<Event>, b: seq<Event>)
    ensures Run(w, a + b) == Run(Run(w, a), b)
    decreases |a|
  {
    if a == [] {
      assert a + b == b;
    } else {
      RunConcat(w.Step(a[0]), a[1..], b);
      assert a + b == [a[0]] + (a[1..] + b) && a == [a[0]] + a[1..];
      RunStarts(w, a[0], a[1..] + b);
      RunStarts(w, a[0], a[1..]);
    }
  }

  lemma {:induction false} FourTables(w: World, k: nat) returns (events: seq<Event>)
    requires Busy(w, k)
    ensures Busy(Run(w, events), 4) && OfFive(events)
    decreases 4 - k
  {
    if k == 4 {
      events := [];
    } else {
      OneMoreTable(w, k);
      var rest := FourTables(Run(w, TableEvents(k)), k + 1);
      RunConcat(w, TableEvents(k), rest);
      events := TableEvents(k) + rest;
    }
  }

  // ----- the fifth -----

  lemma NobodyIsTheBot(w: World)
    requires Newest(w, 4, 0, BOT_START_UID, Free, Waiting) && BOT_START_UID in w.pool.inUse
    ensures !Allocated(w)
  {
    forall id, i ensures !SeatHolds(w, id, i, BOT_START_UID) {
      if FIRST_MATCH_ID <= id < FIRST_MATCH_ID + 4 { assert InGame(w.matches[id], id - FIRST_MATCH_ID); }
    }
  }

  /** The last bot is taken from the pool, but its uid already sits at the table. */
  lemma LastTick(w: World)
    requires Newest(w, 4, 1, BOT_START_UID, Free, Waiting)
    ensures !Allocated(w.Step(TickWith(4, WANTS_BOT)))
  {
    var id := FIRST_MATCH_ID + 4;
    var moved := w.With(id, w.matches[id].(state := Waiting, inGame := false));
    var t := moved.matches[id];
    NextBot(w.pool, 1);
    assert t.seats[0].Taken? && !t.seats[0].isBot && t.seats[0].uid == BOT_START_UID;
    assert t.seats[1].Free?;
    assert t.IsPlayer(BOT_START_UID) && t.HasPeople() && !t.Full();
    var lost := moved.(pool := w.pool.Request().1);
    assert moved.GenerateBot(id) == lost;
    assert w.Visit(id, WANTS_BOT, ONLINE) == lost;
    TickIsVisit(w, 4, WANTS_BOT);
    NobodyIsTheBot(lost);
  }

  /** If five users have these uids, a run of their requests loses a bot. */
  lemma LosesABot() returns (events: seq<Event>)
    ensures OfFive(events) && !Allocated(Run(NEW_WORLD, events))
  {
    var started := NEW_WORLD.Step(Start);
    assert Busy(started, 0);
    var tables := FourTables(started, 0);
    var full := Run(started, tables);
    NewTableFor(full, 4, BOT_START_UID);
    var asked := full.Step(QuickPlayAsked(BOT_START_UID, Ids(4)));
    LastTick(asked);
    RunStarts(asked, TickWith(4, WANTS_BOT), []);
    RunStarts(full, QuickPlayAsked(BOT_START_UID, Ids(4)), [TickWith(4, WANTS_BOT)]);
    var last := [QuickPlayAsked(BOT_START_UID, Ids(4))] + [TickWith(4, WANTS_BOT)];
    RunConcat(started, tables, last);
    RunStarts(NEW_WORLD, Start, tables + last);
    events := [Start] + (tables + last);
  }

  // ----- how long the bots are safe -----

  lemma OneTokenMore(tokens: seq<string>) returns (events: seq<Event>)
    requires |Named(tokens)| > SAFE_TOKENS
    ensures (forall e :: e in events ==> LoggedIn(LoginAll(NO_LOGINS, tokens), e)) && !Allocated(Run(NEW_WORLD, events))
  {
    LoginsAreCounted(tokens);
    events := LosesABot();
  }

  /** No run of logged-in users loses a bot if and only if at most 900,000 tokens have been seen. */
  lemma AllocationLastsIff(tokens: seq<string>)
    ensures var l := LoginAll(NO_LOGINS, tokens);
            (forall events :: (forall e :: e in events ==> LoggedIn(l, e)) ==> Allocated(Run(NEW_WORLD, events))) <==>
            |Named(tokens)| <= SAFE_TOKENS
  {
    var l := LoginAll(NO_LOGINS, tokens);
    if |Named(tokens)| <= SAFE_TOKENS {
      forall events | forall e :: e in events ==> LoggedIn(l, e) ensures Allocated(Run(NEW_WORLD, events)) {
        OrderLasts(tokens, events);
      }
    } else {
      var events := OneTokenMore(tokens);
    }
  }

  /** The same bound is exact for the whole order of the registry. */
  lemma RunsAreOrderlyIff(tokens: seq<string>)
    ensures var l := LoginAll(NO_LOGINS, tokens);
            (forall events :: (forall e :: e in events ==> LoggedIn(l, e)) ==> OrderlyRun(events)) <==>
            |Named(tokens)| <= SAFE_TOKENS
  {
    var l := LoginAll(NO_LOGINS, tokens);
    if |Named(tokens)| <= SAFE_TOKENS {
      forall events | forall e :: e in events ==> LoggedIn(l, e) ensures OrderlyRun(events) {
        OrderLasts(tokens, events);
      }
    } else {
      var events := OneTokenMore(tokens);
      assert !OrderlyRun(events);
    }
  }
}
