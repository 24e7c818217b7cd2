/**
 Whole runs of the registry. The bot pool is an allocator: a bot is in use exactly while it sits in
 one seat of one match that is not about to be destroyed. A user who joins no second match by id is in
 no match but the one the index names.
 */
module RegistryRuns {
  import opened Options
  import opened BotPool
  import opened Registry
  import opened RegistryIndex

  // ----- one match -----

  /** Every uid at most once, bots only in bot seats, viewers without a seat. */
  ghost predicate TableInv(t: Table) {
    && EachOnce(t)
    && (forall i :: 0 <= i < |t.seats| && t.seats[i].Taken? ==>
          if t.seats[i].isBot then IsBot(t.seats[i].uid) else IsUser(t.seats[i].uid))
    && (forall u :: u in t.viewers ==> IsUser(u))
  }

  lemma JoinKeepsTable(t: Table, uid: int, isBot: bool)
    requires TableInv(t) && (if isBot then IsBot(uid) && !t.Full() else IsUser(uid)) && !t.IsPlayer(uid)
    ensures t.TryJoin(uid, isBot).Some? && TableInv(t.TryJoin(uid, isBot).value)
  {
    JoinKeepsOnce(t, uid, isBot);
  }

  lemma LeaveKeepsTable(t: Table, uid: int)
    requires TableInv(t)
    ensures TableInv(t.Without(uid))
  {
    LeaveKeepsOnce(t, uid);
  }

  // ----- the invariant -----

  ghost predicate BotAt(w: World, uid: int, id: int) {
    id in w.matches && !w.matches[id].doomed && w.matches[id].HasBot(uid)
  }

  ghost predicate Homed(w: World, uid: int) {
    exists id :: BotAt(w, uid, id)
  }

  /** A bot is in use exactly while it has a seat, and it has at most one. */
  ghost predicate PoolInv(w: World) {
    && w.pool.Valid()
    && (forall uid :: uid in w.pool.inUse <==> Homed(w, uid))
    && (forall uid, a, b :: BotAt(w, uid, a) && BotAt(w, uid, b) ==> a == b)
  }

  ghost predicate Inv(w: World) {
    && PoolInv(w) && IndexInv(w)
    && (forall uid :: uid in w.index ==> IsUser(uid))
    && forall id :: id in w.matches ==> TableInv(w.matches[id])
  }

  /** Between two requests no match is waiting to be destroyed. */
  ghost predicate Settled(w: World) {
    Inv(w) && w.pending == {}
  }

  // ----- what keeps the pool in step -----

  lemma SameBotsKeepPool(w: World, w': World)
    requires PoolInv(w) && w'.pool == w.pool && forall uid, id :: BotAt(w', uid, id) <==> BotAt(w, uid, id)
    ensures PoolInv(w')
  {
  }

  lemma SeatedBotKeepsPool(w: World, w': World, uid: int, id: int)
    requires PoolInv(w) && w'.pool.Valid() && uid !in w.pool.inUse && w'.pool.inUse == w.pool.inUse + {uid}
    requires forall u, k :: BotAt(w', u, k) <==> BotAt(w, u, k) || (u == uid && k == id)
    ensures PoolInv(w')
  {
    forall u ensures u in w'.pool.inUse <==> Homed(w', u) {
      if u == uid { assert BotAt(w', u, id); }
      if u in w.pool.inUse { var k :| BotAt(w, u, k); assert BotAt(w', u, k); }
      if u != uid && Homed(w', u) { var k :| BotAt(w', u, k); assert BotAt(w, u, k); }
    }
    forall u, a, b | BotAt(w', u, a) && BotAt(w', u, b) ensures a == b {
      if u == uid && BotAt(w, u, a) { assert Homed(w, u); }
      if u == uid && BotAt(w, u, b) { assert Homed(w, u); }
    }
  }

  /** The bots `gone` leave their seats in match `id`. */
  lemma GoneBotsKeepPool(w: World, w': World, gone: set<int>, id: int)
    requires PoolInv(w) && w'.pool.Valid() && w'.pool.inUse == w.pool.inUse - gone
    requires forall u :: u in gone ==> BotAt(w, u, id)
    requires forall u, k :: BotAt(w', u, k) <==> BotAt(w, u, k) && !(k == id && u in gone)
    ensures PoolInv(w')
  {
  }

  // ----- people coming and going -----

  lemma JoinKeepsInv(w: World, id: int, uid: int)
    requires Inv(w) && id in w.matches && IsUser(uid)
    ensures var (joined, error) := w.TryJoin(id, uid, false);
            && Inv(joined) && joined.index == w.index && joined.pending == w.pending
            && id in joined.matches && joined.matches[id].Has(uid) && (error.Success? <==> !w.matches[id].IsPlayer(uid))
  {
    var t := w.matches[id];
    JoinKeepsIndex(w, id, uid, false);
    if !t.IsPlayer(uid) {
      JoinKeepsTable(t, uid, false);
      var joined := w.TryJoin(id, uid, false).0;
      forall u, k ensures BotAt(joined, u, k) <==> BotAt(w, u, k) {
        JoinMoves(t, uid, false, u);
      }
      SameBotsKeepPool(w, joined);
    }
  }

  lemma LeaveKeepsInv(w: World, id: int, uid: int)
    requires Inv(w) && id in w.matches && !w.matches[id].doomed
    ensures var left := w.UserLeave(id, uid);
            && Inv(left) && left.matches.Keys == w.matches.Keys && left.pending == w.pending && left.nextId == w.nextId
            && !left.matches[id].doomed && left.running == w.running
  {
    var t := w.matches[id];
    LeaveKeepsIndex(w, id, uid);
    if t.Has(uid) {
      LeaveKeepsTable(t, uid);
      var left := w.UserLeave(id, uid);
      ReleaseReturns(w.pool, uid);
      forall u, k ensures BotAt(left, u, k) <==> BotAt(w, u, k) && !(k == id && u == uid) {
        LeaveMoves(t, uid, u);
      }
      if t.HasBot(uid) {
        assert BotAt(w, uid, id);
        GoneBotsKeepPool(w, left, {uid}, id);
      } else {
        SameBotsKeepPool(w, left);
      }
    }
  }

  lemma {:induction false} KickAllKeepsInv(w: World, id: int, uids: seq<int>)
    requires Inv(w) && id in w.matches && !w.matches[id].doomed
    ensures var left := w.KickAll(id, uids);
            && Inv(left) && left.matches.Keys == w.matches.Keys && left.pending == w.pending && left.nextId == w.nextId
            && !left.matches[id].doomed && left.running == w.running
    decreases |uids|
  {
    if uids != [] {
      LeaveKeepsInv(w, id, uids[0]);
      KickAllKeepsInv(w.UserLeave(id, uids[0]), id, uids[1..]);
    }
  }

  lemma SeatedBotKeepsInv(w: World, id: int, bot: int, after: Pool)
    requires Inv(w) && id in w.matches && !w.matches[id].doomed && !w.matches[id].Full()
    requires w.pool.Request() == (Some(bot), after)
    ensures var made := w.(pool := after).TryJoin(id, bot, true).0;
            && Inv(made) && made.matches.Keys == w.matches.Keys && made.pending == w.pending && made.nextId == w.nextId
            && made.index == w.index && made.running == w.running && !made.matches[id].doomed
            && made.matches[id].HasBot(bot) && made.pool == after && bot !in w.pool.inUse
  {
    var t := w.matches[id];
    RequestIsFresh(w.pool);
    if t.IsPlayer(bot) {
      assert BotAt(w, bot, id);
      assert Homed(w, bot);
      assert false;
    }
    PoolIsNoMatter(w, after);
    JoinKeepsIndex(w.(pool := after), id, bot, true);
    JoinKeepsTable(t, bot, true);
    var made := w.(pool := after).TryJoin(id, bot, true).0;
    forall u, k ensures BotAt(made, u, k) <==> BotAt(w, u, k) || (u == bot && k == id) {
      JoinMoves(t, bot, true, u);
    }
    SeatedBotKeepsPool(w, made, bot, id);
    assert BotAt(made, bot, id);
  }

  /** A bot that is asked for always gets a seat: none leaves the pool in vain. */
  lemma GenerateKeepsInv(w: World, id: int)
    requires Inv(w) && id in w.matches && !w.matches[id].doomed
    ensures var made := w.GenerateBot(id);
            && Inv(made) && made.matches.Keys == w.matches.Keys && made.pending == w.pending && made.nextId == w.nextId
            && made.index == w.index && !made.matches[id].doomed && made.running == w.running
            && (w.matches[id].HasPeople() && !w.matches[id].Full() && w.pool.available != [] ==>
                  var bot := w.pool.available[|w.pool.available| - 1];
                  made.matches[id].HasBot(bot) && bot in made.pool.inUse && bot !in w.pool.inUse)
  {
    var (uid, after) := w.pool.Request();
    if w.matches[id].HasPeople() && !w.matches[id].Full() && uid.Some? { SeatedBotKeepsInv(w, id, uid.value, after); }
  }

  lemma FlagsKeepInv(w: World, id: int, state: MatchState, inGame: bool)
    requires Inv(w) && id in w.matches
    ensures Inv(w.With(id, w.matches[id].(state := state, inGame := inGame)))
  {
    var moved := w.With(id, w.matches[id].(state := state, inGame := inGame));
    forall u, k ensures BotAt(moved, u, k) <==> BotAt(w, u, k) {
    }
    SameBotsKeepPool(w, moved);
    FlagsKeepIndex(w, id, state, inGame);
  }

  lemma LoopKeepsInv(w: World, id: int, o: Outcome)
    requires Inv(w) && id in w.matches && !w.matches[id].doomed
    ensures var looped := w.LoopMatch(id, o);
            && Inv(looped) && looped.matches.Keys == w.matches.Keys && looped.pending == w.pending
            && !looped.matches[id].doomed && looped.running == w.running && looped.nextId == w.nextId
  {
    KickAllKeepsInv(w, id, o.kicked);
    var kicked := w.KickAll(id, o.kicked);
    FlagsKeepInv(kicked, id, o.state, o.inGame);
    if o.wantsBot { GenerateKeepsInv(kicked.With(id, kicked.matches[id].(state := o.state, inGame := o.inGame)), id); }
  }

  // ----- destruction -----

  lemma {:induction false} BotsAreSeated(seats: seq<Seat>, uid: int)
    requires DistinctSeats(seats)
    ensures uid in BotsOf(seats) <==> SeatOf(seats, uid) >= 0 && seats[SeatOf(seats, uid)].isBot
  {
    if seats != [] {
      var n := |seats| - 1;
      BotsAreSeated(seats[..n], uid);
      var i := SeatOf(seats[..n], uid);
      if i >= 0 {
        SeatOfIs(seats, uid, i);
        assert seats[i] == seats[..n][i];
      } else if seats[n].Taken? && seats[n].uid == uid {
        SeatOfIs(seats, uid, n);
      } else {
        assert forall k :: 0 <= k < n ==> seats[..n][k] == seats[k];
      }
    }
  }

  lemma DestroyKeepsPool(w: World, id: int)
    requires PoolInv(w) && id in w.matches && TableInv(w.matches[id]) && !w.matches[id].doomed
    ensures PoolInv(w.RequestDestroy(id))
  {
    var t := w.matches[id];
    var doomed := w.RequestDestroy(id);
    var gone := set u | u in t.Bots();
    ReleaseAllReturns(w.pool, t.Bots());
    forall u ensures u in gone <==> BotAt(w, u, id) {
      BotsAreSeated(t.seats, u);
    }
    forall u, k ensures BotAt(doomed, u, k) <==> BotAt(w, u, k) && !(k == id && u in gone) {
    }
    GoneBotsKeepPool(w, doomed, gone, id);
  }

  /** A match marked for destruction gives back exactly the bots seated in it. */
  lemma DestroyKeepsInv(w: World, id: int)
    requires Inv(w) && id in w.matches && !w.matches[id].doomed
    ensures Inv(w.RequestDestroy(id)) && w.RequestDestroy(id).running == w.running
  {
    DestroyKeepsPool(w, id);
    DestroyKeepsIndex(w, id);
  }

  lemma VisitKeepsInv(w: World, id: int, o: Outcome, online: set<int>)
    requires Inv(w)
    ensures Inv(w.Visit(id, o, online)) && w.Visit(id, o, online).running == w.running
  {
    if id in w.matches && !w.matches[id].doomed {
      LoopKeepsInv(w, id, o);
      var looped := w.LoopMatch(id, o);
      if !looped.matches[id].HasOnline(online) { DestroyKeepsInv(looped, id); }
    }
  }

  lemma {:induction false} VisitAllKeepsInv(w: World, order: seq<int>, outcomes: map<int, Outcome>, online: set<int>)
    requires Inv(w)
    ensures Inv(w.VisitAll(order, outcomes, online)) && w.VisitAll(order, outcomes, online).running == w.running
    decreases |order|
  {
    if order != [] {
      var o := if order[0] in outcomes then outcomes[order[0]] else Outcome([], false, Waiting, false);
      VisitKeepsInv(w, order[0], o, online);
      VisitAllKeepsInv(w.Visit(order[0], o, online), order[1..], outcomes, online);
    }
  }

  /** Destruction leaves no dangling entry, and no bot of a destroyed match in use. */
  lemma FlushKeepsInv(w: World)
    requires Inv(w)
    ensures Settled(w.Flush()) && forall id :: id in w.Flush().matches ==> w.Flush().matches[id] == w.matches[id]
  {
    var flushed := w.Flush();
    forall u, k ensures BotAt(flushed, u, k) <==> BotAt(w, u, k) {
    }
    SameBotsKeepPool(w, flushed);
    FlushKeepsIndex(w);
  }

  // ----- requests -----

  lemma UserJoinKeepsInv(w: World, id: int, uid: int)
    requires Settled(w) && IsUser(uid)
    ensures Settled(w.UserJoinMatch(id, uid))
  {
    UserJoinKeepsIndex(w, id, uid);
    if id in w.matches {
      JoinKeepsInv(w, id, uid);
      var (joined, error) := w.TryJoin(id, uid, false);
      if error.Success? {
        var indexed := w.UserJoinMatch(id, uid);
        forall u, k ensures BotAt(indexed, u, k) <==> BotAt(joined, u, k) {
        }
        SameBotsKeepPool(joined, indexed);
      }
    }
  }

  lemma CreateKeepsInv(w: World, playerMode: nat, isPrivate: bool)
    requires Settled(w)
    ensures Settled(w.CreateMatch(playerMode, isPrivate)) && w.nextId in w.CreateMatch(playerMode, isPrivate).matches
    ensures w.nextId !in w.matches
  {
    var made := w.CreateMatch(playerMode, isPrivate);
    assert TableInv(NewTable(playerMode));
    forall u, k ensures BotAt(made, u, k) <==> BotAt(w, u, k) {
      EmptySeats(playerMode, u);
    }
    SameBotsKeepPool(w, made);
    CreateKeepsIndex(w, playerMode, isPrivate);
  }

  /** The user a request may bring into a match. */
  function Newcomer(e: Event): Option<int> {
    match e
    case QuickPlayAsked(uid, order) => Some(uid)
    case JoinAsked(uid, id) => Some(uid)
    case TableAsked(uid, playerMode, pointMode, isPrivate) => Some(uid)
    case SeatAsked(uid, seat) => Some(uid)
    case _ => None
  }

  /** Requests come from users whose uid is no bot's; `Logins` says how long the login keeps to that. */
  predicate FromUser(e: Event) {
    Newcomer(e).Some? ==> IsUser(Newcomer(e).value)
  }

  lemma TickKeepsInv(w: World, order: seq<int>, outcomes: map<int, Outcome>, online: set<int>)
    requires Settled(w)
    ensures Settled(w.Update(order, outcomes, online))
  {
    if w.running {
      VisitAllKeepsInv(w, order, outcomes, online);
      FlushKeepsInv(w.VisitAll(order, outcomes, online));
    }
  }

  lemma QuickPlayKeepsInv(w: World, uid: int, order: seq<int>)
    requires Settled(w) && IsUser(uid)
    ensures Settled(w.QuickPlay(uid, order))
  {
    if uid !in w.index {
      var id := w.Suitable(order);
      if id.Some? {
        UserJoinKeepsInv(w, id.value, uid);
      } else {
        CreateKeepsInv(w, SOLO, false);
        UserJoinKeepsInv(w.CreateMatch(SOLO, false), w.nextId, uid);
      }
    } else {
      assert Indexed(w, uid);
    }
  }

  lemma TableKeepsInv(w: World, uid: int, playerMode: nat, pointMode: int, isPrivate: bool)
    requires Settled(w) && IsUser(uid)
    ensures Settled(w.CreateTable(uid, playerMode, pointMode, isPrivate))
  {
    CreateKeepsInv(w, playerMode, isPrivate);
    UserJoinKeepsInv(w.CreateMatch(playerMode, isPrivate), w.nextId, uid);
  }

  lemma IndexedLeaveKeepsInv(w: World, uid: int)
    requires Settled(w)
    ensures Settled(w.LeavePacket(uid)) && Settled(w.Disconnect(uid))
  {
    if uid in w.index && w.index[uid] in w.matches { LeaveKeepsInv(w, w.index[uid], uid); }
  }

  lemma SameWorld(w: World, w': World)
    requires Settled(w) && w' == w.(running := w'.running)
    ensures Settled(w')
  {
    forall u, k ensures BotAt(w', u, k) <==> BotAt(w, u, k) {
    }
    SameBotsKeepPool(w, w');
    SwitchKeepsIndex(w, w'.running);
  }

  /** Every request and every tick keeps the registry in order. */
  lemma StepKeepsInv(w: World, e: Event)
    requires Settled(w) && FromUser(e)
    ensures Settled(w.Step(e))
  {
    match e
    case Start => SameWorld(w, w.(running := true));
    case Stop => SameWorld(w, w.(running := false));
    case Tick(order, outcomes, online) => TickKeepsInv(w, order, outcomes, online);
    case QuickPlayAsked(uid, order) => QuickPlayKeepsInv(w, uid, order);
    case JoinAsked(uid, id) => UserJoinKeepsInv(w, id, uid);
    case TableAsked(uid, playerMode, pointMode, isPrivate) => TableKeepsInv(w, uid, playerMode, pointMode, isPrivate);
    case LeaveAsked(uid) => IndexedLeaveKeepsInv(w, uid);
    case Disconnected(uid) => IndexedLeaveKeepsInv(w, uid);
    case SeatAsked(uid, seat) =>
      if uid in w.index && w.index[uid] in w.matches { JoinKeepsInv(w, w.index[uid], uid); }
  }

  lemma {:induction false} RunKeepsInv(w: World, events: seq<Event>)
    requires Settled(w) && forall e :: e in events ==> FromUser(e)
    ensures Settled(Run(w, events))
    decreases |events|
  {
    if events != [] {
      assert events[0] in events;
      StepKeepsInv(w, events[0]);
      RunKeepsInv(w.Step(events[0]), events[1..]);
    }
  }

  lemma NewWorldIsSettled()
    ensures Settled(NEW_WORLD)
  {
  }

  // ----- what every run keeps -----

  ghost predicate SeatHolds(w: World, id: int, i: int, uid: int) {
    id in w.matches && 0 <= i < |w.matches[id].seats| && w.matches[id].seats[i] == Taken(uid, true)
  }

  ghost predicate Allocated(w: World) {
    && w.pool.Valid()
    && (forall uid :: uid in w.pool.inUse <==> exists id, i :: SeatHolds(w, id, i, uid))
    && (forall uid, a, i, b, j :: SeatHolds(w, a, i, uid) && SeatHolds(w, b, j, uid) ==> a == b && i == j)
  }

  /**
   Over every run the free list, without repeats, and the set in use partition the five bot uids,
   and a bot is in use exactly when it sits somewhere, in one seat of one match.
   */
  lemma BotsAreAllocated(events: seq<Event>)
    requires forall e :: e in events ==> FromUser(e)
    ensures var w := Run(NEW_WORLD, events);
            Allocated(w) && |w.pool.available| + |w.pool.inUse| == BOTS
  {
    NewWorldIsSettled();
    RunKeepsInv(NEW_WORLD, events);
    var w := Run(NEW_WORLD, events);
    PoolSizes(w.pool);
    forall uid, id, i | SeatHolds(w, id, i, uid) ensures BotAt(w, uid, id) && SeatOf(w.matches[id].seats, uid) == i {
      SeatOfIs(w.matches[id].seats, uid, i);
    }
    forall uid ensures uid in w.pool.inUse <==> exists id, i :: SeatHolds(w, id, i, uid) {
      if uid in w.pool.inUse {
        var id :| BotAt(w, uid, id);
        assert SeatHolds(w, id, SeatOf(w.matches[id].seats, uid), uid);
      }
      if exists id, i :: SeatHolds(w, id, i, uid) {
        var id, i :| SeatHolds(w, id, i, uid);
        assert BotAt(w, uid, id);
      }
    }
  }

  // ----- the other direction -----

  /** Every match with the user in it is the one the index names. */
  ghost predicate Faithful(w: World, u: int) {
    forall id :: id in w.matches && w.matches[id].Has(u) ==> u in w.index && w.index[u] == id
  }

  lemma LeaveKeepsFaithful(w: World, id: int, uid: int, u: int)
    requires Inv(w) && id in w.matches && Faithful(w, u)
    ensures Faithful(w.UserLeave(id, uid), u)
  {
  }

  lemma {:induction false} KickAllKeepsFaithful(w: World, id: int, uids: seq<int>, u: int)
    requires Inv(w) && id in w.matches && !w.matches[id].doomed && Faithful(w, u)
    ensures Faithful(w.KickAll(id, uids), u)
    decreases |uids|
  {
    if uids != [] {
      LeaveKeepsInv(w, id, uids[0]);
      LeaveKeepsFaithful(w, id, uids[0], u);
      KickAllKeepsFaithful(w.UserLeave(id, uids[0]), id, uids[1..], u);
    }
  }

  lemma GenerateKeepsFaithful(w: World, id: int, u: int)
    requires Inv(w) && id in w.matches && Faithful(w, u) && IsUser(u)
    ensures Faithful(w.GenerateBot(id), u)
  {
  }

  lemma LoopKeepsFaithful(w: World, id: int, o: Outcome, u: int)
    requires Inv(w) && id in w.matches && !w.matches[id].doomed && Faithful(w, u) && IsUser(u)
    ensures Faithful(w.LoopMatch(id, o), u)
  {
    KickAllKeepsInv(w, id, o.kicked);
    KickAllKeepsFaithful(w, id, o.kicked, u);
    var kicked := w.KickAll(id, o.kicked);
    FlagsKeepInv(kicked, id, o.state, o.inGame);
    var moved := kicked.With(id, kicked.matches[id].(state := o.state, inGame := o.inGame));
    assert Faithful(moved, u);
    if o.wantsBot { GenerateKeepsFaithful(moved, id, u); }
  }

  lemma VisitKeepsFaithful(w: World, id: int, o: Outcome, online: set<int>, u: int)
    requires Inv(w) && Faithful(w, u) && IsUser(u)
    ensures Faithful(w.Visit(id, o, online), u)
  {
    if id in w.matches && !w.matches[id].doomed {
      LoopKeepsFaithful(w, id, o, u);
      LoopKeepsInv(w, id, o);
    }
  }

  lemma {:induction false} VisitAllKeepsFaithful(w: World, order: seq<int>, outcomes: map<int, Outcome>, online: set<int>, u: int)
    requires Inv(w) && Faithful(w, u) && IsUser(u)
    ensures Faithful(w.VisitAll(order, outcomes, online), u)
    decreases |order|
  {
    if order != [] {
      var id := order[0];
      var o := if id in outcomes then outcomes[id] else Outcome([], false, Waiting, false);
      VisitKeepsInv(w, id, o, online);
      VisitKeepsFaithful(w, id, o, online, u);
      VisitAllKeepsFaithful(w.Visit(id, o, online), order[1..], outcomes, online, u);
    }
  }

  lemma FlushKeepsFaithful(w: World, u: int)
    requires Inv(w) && Faithful(w, u)
    ensures Faithful(w.Flush(), u)
  {
  }

  /**
   Joining by id does not leave an earlier match. For a user in no other match than the index says,
   this stays so after the request if and only if the user is not already indexed to another match.
   */
  lemma JoinIsFaithfulIff(w: World, uid: int, id: int)
    requires Settled(w) && IsUser(uid) && Faithful(w, uid)
    ensures Faithful(w.UserJoinMatch(id, uid), uid) <==> !(id in w.matches && uid in w.index && w.index[uid] != id)
  {
    if id in w.matches {
      JoinKeepsInv(w, id, uid);
      if !w.matches[id].IsPlayer(uid) { JoinMoves(w.matches[id], uid, false, uid); }
      if uid in w.index { assert Indexed(w, uid); }
      var joined := w.UserJoinMatch(id, uid);
      if uid in w.index && w.index[uid] != id {
        assert joined.matches[w.index[uid]].Has(uid) && joined.matches[id].Has(uid);
      }
    }
  }

  lemma JoinedKeepsFaithful(w: World, id: int, uid: int, u: int)
    requires Settled(w) && IsUser(uid) && Faithful(w, u)
    requires u == uid ==> !(id in w.matches && uid in w.index && w.index[uid] != id)
    ensures Faithful(w.UserJoinMatch(id, uid), u)
  {
  }

  lemma CreatedKeepsFaithful(w: World, playerMode: nat, isPrivate: bool, u: int)
    requires Settled(w) && Faithful(w, u)
    ensures Faithful(w.CreateMatch(playerMode, isPrivate), u)
  {
  }

  /** A join by id from a user who is indexed to another match. */
  predicate JoinsTwice(w: World, e: Event) {
    e.JoinAsked? && e.id in w.matches && e.uid in w.index && w.index[e.uid] != e.id
  }

  lemma NewcomerKeepsFaithful(w: World, uid: int, playerMode: nat, isPrivate: bool, u: int)
    requires Settled(w) && IsUser(uid) && Faithful(w, u) && uid !in w.index
    ensures Faithful(w.CreateMatch(playerMode, isPrivate).UserJoinMatch(w.nextId, uid), u)
  {
    CreateKeepsInv(w, playerMode, isPrivate);
    CreatedKeepsFaithful(w, playerMode, isPrivate, u);
    JoinedKeepsFaithful(w.CreateMatch(playerMode, isPrivate), w.nextId, uid, u);
  }

  lemma QuickPlayKeepsFaithful(w: World, uid: int, order: seq<int>, u: int)
    requires Settled(w) && IsUser(uid) && Faithful(w, u)
    ensures Faithful(w.QuickPlay(uid, order), u)
  {
    if uid in w.index {
      assert Indexed(w, uid);
    } else if w.Suitable(order).Some? {
      JoinedKeepsFaithful(w, w.Suitable(order).value, uid, u);
    } else {
      NewcomerKeepsFaithful(w, uid, SOLO, false, u);
    }
  }

  lemma SeatKeepsFaithful(w: World, uid: int, seat: int, u: int)
    requires Settled(w) && IsUser(uid) && Faithful(w, u)
    ensures Faithful(w.ViewerEnters(uid, seat), u)
  {
  }

  lemma StepKeepsFaithful(w: World, e: Event, u: int)
    requires Settled(w) && FromUser(e) && !JoinsTwice(w, e) && Faithful(w, u) && IsUser(u)
    ensures Faithful(w.Step(e), u)
  {
    match e
    case Start =>
    case Stop =>
    case Tick(order, outcomes, online) =>
      if w.running {
        VisitAllKeepsInv(w, order, outcomes, online);
        VisitAllKeepsFaithful(w, order, outcomes, online, u);
        FlushKeepsFaithful(w.VisitAll(order, outcomes, online), u);
      }
    case QuickPlayAsked(uid, order) => QuickPlayKeepsFaithful(w, uid, order, u);
    case JoinAsked(uid, id) => JoinedKeepsFaithful(w, id, uid, u);
    case TableAsked(uid, playerMode, pointMode, isPrivate) =>
      if uid !in w.index { NewcomerKeepsFaithful(w, uid, playerMode, isPrivate, u); }
    case LeaveAsked(uid) => if uid in w.index && w.index[uid] in w.matches { LeaveKeepsFaithful(w, w.index[uid], uid, u); }
    case Disconnected(uid) => if uid in w.index && w.index[uid] in w.matches { LeaveKeepsFaithful(w, w.index[uid], uid, u); }
    case SeatAsked(uid, seat) => SeatKeepsFaithful(w, uid, seat, u);
  }

  ghost predicate NobodyJoinsTwice(w: World, events: seq<Event>)
    decreases |events|
  {
    events == [] || (!JoinsTwice(w, events[0]) && NobodyJoinsTwice(w.Step(events[0]), events[1..]))
  }

  /** In a run where nobody joins a second match by id, the index names every match a user is in. */
  lemma {:induction false} RunIsFaithful(w: World, events: seq<Event>, u: int)
    requires Settled(w) && Faithful(w, u) && IsUser(u)
    requires (forall e :: e in events ==> FromUser(e)) && NobodyJoinsTwice(w, events)
    ensures Faithful(Run(w, events), u)
    decreases |events|
  {
    if events != [] {
      assert events[0] in events;
      StepKeepsInv(w, events[0]);
      StepKeepsFaithful(w, events[0], u);
      RunIsFaithful(w.Step(events[0]), events[1..], u);
    }
  }

  lemma RunFour(w: World, a: Event, b: Event, c: Event, d: Event)
    ensures Run(w, [a, b, c, d]) == w.Step(a).Step(b).Step(c).Step(d)
  {
    assert [a, b, c, d][1..] == [b, c, d] && [b, c, d][1..] == [c, d] && [c, d][1..] == [d] && [d][1..] == [];
    var v := w.Step(a).Step(b);
    assert Run(v.Step(c), [d]) == Run(v.Step(c).Step(d), []) == v.Step(c).Step(d);
    assert Run(v, [c, d]) == v.Step(c).Step(d);
    assert Run(w.Step(a), [b, c, d]) == v.Step(c).Step(d);
  }

  predicate Sits(w: World, id: int, seats: seq<Seat>) {
    id in w.matches && w.matches[id].seats == seats && w.matches[id].isPublic && w.matches[id].state.Waiting?
  }

  lemma FirstPlaysAlone() returns (w: World)
    ensures w == NEW_WORLD.Step(QuickPlayAsked(7, [])) && w.nextId == 1001
    ensures Sits(w, 1000, [Taken(7, false), Free]) && w.index == map[7 := 1000]
  {
    w := NEW_WORLD.Step(QuickPlayAsked(7, []));
    assert w.matches[1000].seats == [Taken(7, false), Free];
  }

  lemma SecondJoinsFirst(w: World) returns (w': World)
    requires Sits(w, 1000, [Taken(7, false), Free]) && w.index == map[7 := 1000]
    ensures w' == w.Step(QuickPlayAsked(8, [1000])) && w'.nextId == w.nextId
    ensures Sits(w', 1000, [Taken(7, false), Taken(8, false)]) && w'.index == map[7 := 1000, 8 := 1000]
  {
    assert w.matches[1000].seats[1..] == [Free];
    assert w.Suitable([1000]) == Some(1000);
    w' := w.UserJoinMatch(1000, 8);
    assert w'.matches[1000].seats == [Taken(7, false), Taken(8, false)];
  }

  lemma ThirdPlaysAlone(w: World) returns (w': World)
    requires Sits(w, 1000, [Taken(7, false), Taken(8, false)]) && w.index == map[7 := 1000, 8 := 1000] && w.nextId == 1001
    ensures w' == w.Step(QuickPlayAsked(9, [1000])) && 7 in w'.index
    ensures Sits(w', 1000, [Taken(7, false), Taken(8, false)]) && Sits(w', 1001, [Taken(9, false), Free])
  {
    assert w.matches[1000].seats[1..] == [Taken(8, false)];
    assert w.Suitable([1000]) == w.Suitable([]) == None;
    var made := w.CreateMatch(SOLO, false);
    assert made.matches[1001].seats == [Free, Free];
    w' := made.UserJoinMatch(1001, 9);
    assert w'.matches[1001].seats == [Taken(9, false), Free];
  }

  lemma FirstJoinsThird(w: World)
    requires Sits(w, 1000, [Taken(7, false), Taken(8, false)]) && Sits(w, 1001, [Taken(9, false), Free])
    ensures var w' := w.Step(JoinAsked(7, 1001));
            && 1000 in w'.matches && 1001 in w'.matches && w'.matches[1000].Has(7) && w'.matches[1001].Has(7)
            && 7 in w'.index && w'.index[7] == 1001
  {
    assert w.matches[1001].seats[1..] == [Free];
    var seats := w.Step(JoinAsked(7, 1001)).matches[1001].seats;
    assert seats == [Taken(9, false), Taken(7, false)];
    assert seats[1].Taken? && seats[1].uid == 7;
  }

  /** A user who plays in one match and then joins another by its id sits in both. */
  lemma SecondJoinStaysInBoth()
    ensures var w := Run(NEW_WORLD, [QuickPlayAsked(7, []), QuickPlayAsked(8, [1000]), QuickPlayAsked(9, [1000]), JoinAsked(7, 1001)]);
            && 1000 in w.matches && 1001 in w.matches && w.matches[1000].Has(7) && w.matches[1001].Has(7)
            && 7 in w.index && w.index[7] == 1001
  {
    var a, b, c, d := QuickPlayAsked(7, []), QuickPlayAsked(8, [1000]), QuickPlayAsked(9, [1000]), JoinAsked(7, 1001);
    var one := FirstPlaysAlone();
    var two := SecondJoinsFirst(one);
    var three := ThirdPlaysAlone(two);
    FirstJoinsThird(three);
    RunFour(NEW_WORLD, a, b, c, d);
  }

  // ----- no match is private -----

  ghost predicate AllPublic(w: World) {
    forall id :: id in w.matches ==> w.matches[id].isPublic
  }

  lemma {:induction false} KickAllStaysPublic(w: World, id: int, uids: seq<int>)
    requires AllPublic(w) && id in w.matches
    ensures AllPublic(w.KickAll(id, uids))
    decreases |uids|
  {
    if uids != [] { KickAllStaysPublic(w.UserLeave(id, uids[0]), id, uids[1..]); }
  }

  lemma VisitStaysPublic(w: World, id: int, o: Outcome, online: set<int>)
    requires AllPublic(w)
    ensures AllPublic(w.Visit(id, o, online))
  {
    if id in w.matches { KickAllStaysPublic(w, id, o.kicked); }
  }

  lemma {:induction false} VisitAllStaysPublic(w: World, order: seq<int>, outcomes: map<int, Outcome>, online: set<int>)
    requires AllPublic(w)
    ensures AllPublic(w.VisitAll(order, outcomes, online))
    decreases |order|
  {
    if order != [] {
      var o := if order[0] in outcomes then outcomes[order[0]] else Outcome([], false, Waiting, false);
      VisitStaysPublic(w, order[0], o, online);
      VisitAllStaysPublic(w.Visit(order[0], o, online), order[1..], outcomes, online);
    }
  }

  lemma StepStaysPublic(w: World, e: Event)
    requires AllPublic(w)
    ensures AllPublic(w.Step(e))
  {
    match e
    case Tick(order, outcomes, online) => VisitAllStaysPublic(w, order, outcomes, online);
    case QuickPlayAsked(uid, order) => assert AllPublic(w.CreateMatch(SOLO, false));
    case TableAsked(uid, playerMode, pointMode, isPrivate) => assert AllPublic(w.CreateMatch(playerMode, isPrivate));
    case _ =>
  }

  /** Whatever is asked for, every match of every run is public, so quick play may pick any of them. */
  lemma {:induction false} EveryMatchIsPublic(w: World, events: seq<Event>)
    requires AllPublic(w)
    ensures AllPublic(Run(w, events))
    decreases |events|
  {
    if events != [] {
      StepStaysPublic(w, events[0]);
      EveryMatchIsPublic(w.Step(events[0]), events[1..]);
    }
  }
}
