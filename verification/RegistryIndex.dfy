/**
 Whole runs of the registry's user index, whoever asks: every entry names a live match with that
 user in it, and no match has anybody twice.
 */
module RegistryIndex {
  import opened Options
  import opened BotPool
  import opened Registry

  // ----- one match -----

  ghost predicate DistinctSeats(seats: seq<Seat>) {
    forall i, j :: 0 <= i < j < |seats| && seats[i].Taken? && seats[j].Taken? ==> seats[i].uid != seats[j].uid
  }

  /** Every uid at most once, viewers without a seat. */
  ghost predicate EachOnce(t: Table) {
    DistinctSeats(t.seats) && forall u :: u in t.viewers ==> !t.IsPlayer(u)
  }

  lemma SeatOfIs(seats: seq<Seat>, uid: int, i: nat)
    requires DistinctSeats(seats) && i < |seats| && seats[i].Taken? && seats[i].uid == uid
    ensures SeatOf(seats, uid) == i
  {
  }

  /** A seat changed hands: everybody else is where they were. */
  lemma OthersStay(a: seq<Seat>, b: seq<Seat>, i: nat, u: int)
    requires DistinctSeats(a) && DistinctSeats(b) && |a| == |b| && i < |a| && b == a[i := b[i]]
    requires (a[i].Taken? ==> a[i].uid != u) && (b[i].Taken? ==> b[i].uid != u)
    ensures SeatOf(a, u) == SeatOf(b, u)
    ensures SeatOf(a, u) >= 0 ==> a[SeatOf(a, u)] == b[SeatOf(b, u)]
  {
    var k, m := SeatOf(a, u), SeatOf(b, u);
    if k >= 0 { SeatOfIs(b, u, k); }
    if m >= 0 { SeatOfIs(a, u, m); }
  }

  /** Joining puts the user into the table; everybody else stays where they were. */
  lemma JoinMoves(t: Table, uid: int, isBot: bool, u: int)
    requires EachOnce(t) && (isBot ==> !t.Full()) && !t.IsPlayer(uid)
    ensures t.TryJoin(uid, isBot).Some? && var t' := t.TryJoin(uid, isBot).value;
            && DistinctSeats(t'.seats) && t'.Has(u) == (t.Has(u) || u == uid) && t'.HasBot(u) == (t.HasBot(u) || (isBot && u == uid))
            && (u != uid ==> t'.IsPlayer(u) == t.IsPlayer(u))
  {
    var t' := t.TryJoin(uid, isBot).value;
    var i := FreeSeat(t.seats);
    if i >= 0 {
      assert DistinctSeats(t'.seats);
      if u == uid { SeatOfIs(t'.seats, uid, i); } else { OthersStay(t.seats, t'.seats, i, u); }
    }
  }

  lemma JoinKeepsOnce(t: Table, uid: int, isBot: bool)
    requires EachOnce(t) && (isBot ==> !t.Full()) && !t.IsPlayer(uid)
    ensures t.TryJoin(uid, isBot).Some? && EachOnce(t.TryJoin(uid, isBot).value)
    ensures t.TryJoin(uid, isBot).value.doomed == t.doomed
  {
    var t' := t.TryJoin(uid, isBot).value;
    JoinMoves(t, uid, isBot, uid);
    forall u | u in t'.viewers ensures !t'.IsPlayer(u) { JoinMoves(t, uid, isBot, u); }
  }

  /** Leaving takes the user out of the table; everybody else stays where they were. */
  lemma LeaveMoves(t: Table, uid: int, u: int)
    requires EachOnce(t)
    ensures var t' := t.Without(uid);
            && DistinctSeats(t'.seats) && t'.Has(u) == (t.Has(u) && u != uid) && t'.HasBot(u) == (t.HasBot(u) && u != uid)
            && (u != uid ==> t'.IsPlayer(u) == t.IsPlayer(u))
  {
    var t' := t.Without(uid);
    var i := SeatOf(t.seats, uid);
    if i >= 0 {
      assert DistinctSeats(t'.seats);
      if u != uid {
        OthersStay(t.seats, t'.seats, i, u);
      } else if SeatOf(t'.seats, uid) >= 0 {
        SeatOfIs(t.seats, uid, SeatOf(t'.seats, uid));
      }
    }
  }

  lemma LeaveKeepsOnce(t: Table, uid: int)
    requires EachOnce(t)
    ensures EachOnce(t.Without(uid)) && t.Without(uid).doomed == t.doomed
  {
    var t' := t.Without(uid);
    LeaveMoves(t, uid, uid);
    forall u | u in t'.viewers ensures !t'.IsPlayer(u) { LeaveMoves(t, uid, u); }
  }

  // ----- the invariant -----

  ghost predicate Indexed(w: World, uid: int)
    requires uid in w.index
  {
    w.index[uid] in w.matches && w.matches[w.index[uid]].Has(uid)
  }

  ghost predicate IndexInv(w: World) {
    && w.nextId >= FIRST_MATCH_ID
    && (forall uid :: uid in w.index ==> Indexed(w, uid))
    && (forall id :: id in w.matches ==> FIRST_MATCH_ID <= id < w.nextId && EachOnce(w.matches[id]))
    && (forall id :: id in w.pending <==> id in w.matches && w.matches[id].doomed)
  }

  /** Nothing moves in the world but one match, and nobody indexed there leaves it. */
  lemma OneMatchKeepsIndex(w: World, w': World, id: int)
    requires IndexInv(w) && id in w.matches && id in w'.matches && w'.nextId == w.nextId
    requires w'.matches == w.matches[id := w'.matches[id]] && EachOnce(w'.matches[id])
    requires forall k :: k in w'.pending <==> k in w'.matches && w'.matches[k].doomed
    requires forall u :: u in w'.index ==> u in w.index && w'.index[u] == w.index[u]
    requires forall u :: u in w'.index && w'.index[u] == id && w.matches[id].Has(u) ==> w'.matches[id].Has(u)
    ensures IndexInv(w')
  {
    forall u | u in w'.index ensures Indexed(w', u) {
      assert Indexed(w, u);
    }
  }

  // ----- people coming and going -----

  lemma JoinKeepsIndex(w: World, id: int, uid: int, isBot: bool)
    requires IndexInv(w) && id in w.matches && (isBot ==> !w.matches[id].Full())
    ensures var (joined, error) := w.TryJoin(id, uid, isBot);
            && IndexInv(joined) && joined.matches.Keys == w.matches.Keys && joined.pending == w.pending && joined.index == w.index
            && joined.matches[id].Has(uid) && (error.Success? <==> !w.matches[id].IsPlayer(uid))
  {
    var t := w.matches[id];
    if !t.IsPlayer(uid) {
      JoinKeepsOnce(t, uid, isBot);
      JoinMoves(t, uid, isBot, uid);
      forall u | t.Has(u) ensures t.TryJoin(uid, isBot).value.Has(u) {
        JoinMoves(t, uid, isBot, u);
      }
      OneMatchKeepsIndex(w, w.TryJoin(id, uid, isBot).0, id);
    }
  }

  lemma LeaveKeepsIndex(w: World, id: int, uid: int)
    requires IndexInv(w) && id in w.matches
    ensures var left := w.UserLeave(id, uid); IndexInv(left) && left.matches.Keys == w.matches.Keys && left.pending == w.pending
  {
    var t := w.matches[id];
    if t.Has(uid) {
      LeaveKeepsOnce(t, uid);
      forall u | u != uid && t.Has(u) ensures t.Without(uid).Has(u) {
        LeaveMoves(t, uid, u);
      }
      OneMatchKeepsIndex(w, w.UserLeave(id, uid), id);
    }
  }

  lemma {:induction false} KickAllKeepsIndex(w: World, id: int, uids: seq<int>)
    requires IndexInv(w) && id in w.matches
    ensures var left := w.KickAll(id, uids); IndexInv(left) && left.matches.Keys == w.matches.Keys && left.pending == w.pending
    decreases |uids|
  {
    if uids != [] {
      LeaveKeepsIndex(w, id, uids[0]);
      KickAllKeepsIndex(w.UserLeave(id, uids[0]), id, uids[1..]);
    }
  }

  /** Leaving a match takes out of the index the leaver's entry for that match and nothing else. */
  lemma LeaveForgets(w: World, id: int, uid: int, u: int)
    requires IndexInv(w) && id in w.matches
    ensures var left := w.UserLeave(id, uid);
            && (u in left.index <==> u in w.index && !(u == uid && w.index[u] == id))
            && (u in left.index ==> left.index[u] == w.index[u])
  {
    if u in w.index { assert Indexed(w, u); }
  }

  /** Kicking takes out exactly the entries the kicked have for that match; those that name another match stay. */
  lemma {:induction false} KickForgets(w: World, id: int, uids: seq<int>, u: int)
    requires IndexInv(w) && id in w.matches
    ensures var left := w.KickAll(id, uids);
            && (u in left.index <==> u in w.index && !(u in uids && w.index[u] == id))
            && (u in left.index ==> left.index[u] == w.index[u])
    decreases |uids|
  {
    if uids != [] {
      LeaveForgets(w, id, uids[0], u);
      LeaveKeepsIndex(w, id, uids[0]);
      KickForgets(w.UserLeave(id, uids[0]), id, uids[1..], u);
      assert u in uids <==> u == uids[0] || u in uids[1..];
    }
  }

  lemma PoolIsNoMatter(w: World, pool: Pool)
    requires IndexInv(w)
    ensures IndexInv(w.(pool := pool))
  {
    forall u | u in w.index ensures Indexed(w.(pool := pool), u) {
      assert Indexed(w, u);
    }
  }

  lemma GenerateKeepsIndex(w: World, id: int)
    requires IndexInv(w) && id in w.matches
    ensures IndexInv(w.GenerateBot(id)) && w.GenerateBot(id).matches.Keys == w.matches.Keys
  {
    var (uid, after) := w.pool.Request();
    if w.matches[id].HasPeople() && !w.matches[id].Full() && uid.Some? {
      PoolIsNoMatter(w, after);
      JoinKeepsIndex(w.(pool := after), id, uid.value, true);
    }
  }

  lemma FlagsKeepIndex(w: World, id: int, state: MatchState, inGame: bool)
    requires IndexInv(w) && id in w.matches
    ensures IndexInv(w.With(id, w.matches[id].(state := state, inGame := inGame)))
  {
    OneMatchKeepsIndex(w, w.With(id, w.matches[id].(state := state, inGame := inGame)), id);
  }

  lemma LoopKeepsIndex(w: World, id: int, o: Outcome)
    requires IndexInv(w) && id in w.matches
    ensures IndexInv(w.LoopMatch(id, o)) && w.LoopMatch(id, o).matches.Keys == w.matches.Keys
  {
    KickAllKeepsIndex(w, id, o.kicked);
    var kicked := w.KickAll(id, o.kicked);
    FlagsKeepIndex(kicked, id, o.state, o.inGame);
    if o.wantsBot { GenerateKeepsIndex(kicked.With(id, kicked.matches[id].(state := o.state, inGame := o.inGame)), id); }
  }

  // ----- destruction -----

  lemma DestroyKeepsIndex(w: World, id: int)
    requires IndexInv(w) && id in w.matches
    ensures IndexInv(w.RequestDestroy(id))
  {
    OneMatchKeepsIndex(w, w.RequestDestroy(id), id);
  }

  lemma VisitKeepsIndex(w: World, id: int, o: Outcome, online: set<int>)
    requires IndexInv(w)
    ensures IndexInv(w.Visit(id, o, online))
  {
    if id in w.matches && !w.matches[id].doomed {
      LoopKeepsIndex(w, id, o);
      var looped := w.LoopMatch(id, o);
      if !looped.matches[id].HasOnline(online) { DestroyKeepsIndex(looped, id); }
    }
  }

  lemma {:induction false} VisitAllKeepsIndex(w: World, order: seq<int>, outcomes: map<int, Outcome>, online: set<int>)
    requires IndexInv(w)
    ensures IndexInv(w.VisitAll(order, outcomes, online))
    decreases |order|
  {
    if order != [] {
      var o := if order[0] in outcomes then outcomes[order[0]] else Outcome([], false, Waiting, false);
      VisitKeepsIndex(w, order[0], o, online);
      VisitAllKeepsIndex(w.Visit(order[0], o, online), order[1..], outcomes, online);
    }
  }

  lemma HasIsPeople(t: Table, uid: int)
    requires EachOnce(t)
    ensures t.Has(uid) <==> uid in PeopleOf(t)
  {
  }

  /** Destruction leaves no dangling entry. */
  lemma FlushKeepsIndex(w: World)
    requires IndexInv(w)
    ensures IndexInv(w.Flush()) && w.Flush().pending == {}
  {
    var flushed := w.Flush();
    forall u | u in flushed.index ensures Indexed(flushed, u) {
      assert Indexed(w, u);
      var id := w.index[u];
      HasIsPeople(w.matches[id], u);
      assert id in w.pending ==> u in w.People(w.pending);
    }
  }

  // ----- requests -----

  lemma UserJoinKeepsIndex(w: World, id: int, uid: int)
    requires IndexInv(w)
    ensures IndexInv(w.UserJoinMatch(id, uid)) && w.UserJoinMatch(id, uid).pending == w.pending
  {
    if id in w.matches {
      JoinKeepsIndex(w, id, uid, false);
      var joined := w.TryJoin(id, uid, false).0;
      var indexed := joined.(index := w.index[uid := id]);
      forall u | u in indexed.index ensures Indexed(indexed, u) {
        if u != uid { assert Indexed(joined, u); }
      }
    }
  }

  lemma {:induction false} EmptySeats(n: nat, uid: int)
    ensures SeatOf(seq(n, _ => Free), uid) == -1
  {
  }

  lemma CreateKeepsIndex(w: World, playerMode: nat, isPrivate: bool)
    requires IndexInv(w)
    ensures IndexInv(w.CreateMatch(playerMode, isPrivate)) && w.CreateMatch(playerMode, isPrivate).pending == w.pending
    ensures w.nextId !in w.matches && w.nextId in w.CreateMatch(playerMode, isPrivate).matches
  {
    var made := w.CreateMatch(playerMode, isPrivate);
    assert EachOnce(NewTable(playerMode));
    forall u | u in made.index ensures Indexed(made, u) {
      assert Indexed(w, u);
    }
  }

  lemma TickKeepsIndex(w: World, order: seq<int>, outcomes: map<int, Outcome>, online: set<int>)
    requires IndexInv(w) && w.pending == {}
    ensures IndexInv(w.Update(order, outcomes, online)) && w.Update(order, outcomes, online).pending == {}
  {
    if w.running {
      VisitAllKeepsIndex(w, order, outcomes, online);
      FlushKeepsIndex(w.VisitAll(order, outcomes, online));
    }
  }

  lemma NewTableKeepsIndex(w: World, uid: int, playerMode: nat, isPrivate: bool)
    requires IndexInv(w)
    ensures var joined := w.CreateMatch(playerMode, isPrivate).UserJoinMatch(w.nextId, uid);
            IndexInv(joined) && joined.pending == w.pending
  {
    CreateKeepsIndex(w, playerMode, isPrivate);
    UserJoinKeepsIndex(w.CreateMatch(playerMode, isPrivate), w.nextId, uid);
  }

  /** A table is made for a user in no match, for two or four players and a target of 11 or 21, and in no other case. */
  lemma TableIsMadeIff(w: World, uid: int, playerMode: nat, pointMode: int, isPrivate: bool)
    requires IndexInv(w)
    ensures var r := w.CreateTable(uid, playerMode, pointMode, isPrivate);
            if uid !in w.index && (playerMode == 2 || playerMode == 4) && (pointMode == 11 || pointMode == 21) then
              && r.matches.Keys == w.matches.Keys + {w.nextId} && r.nextId == w.nextId + 1 && uid in r.index && r.index[uid] == w.nextId
              && r.matches[w.nextId].seats == [Taken(uid, false)] + seq(playerMode - 1, _ => Free)
            else r == w
  {
    NewTableKeepsIndex(w, uid, playerMode, isPrivate);
    CreateKeepsIndex(w, playerMode, isPrivate);
    EmptySeats(playerMode, uid);
    if playerMode == 2 || playerMode == 4 {
      var made := w.CreateMatch(playerMode, isPrivate);
      var t := made.matches[w.nextId];
      assert !t.IsPlayer(uid) && FreeSeat(t.seats) == 0;
      assert t.seats[0 := Taken(uid, false)] == [Taken(uid, false)] + seq(playerMode - 1, _ => Free);
    }
  }

  lemma SwitchKeepsIndex(w: World, running: bool)
    requires IndexInv(w)
    ensures IndexInv(w.(running := running))
  {
    forall u | u in w.index ensures Indexed(w.(running := running), u) {
      assert Indexed(w, u);
    }
  }

  lemma StepKeepsIndex(w: World, e: Event)
    requires IndexInv(w) && w.pending == {}
    ensures IndexInv(w.Step(e)) && w.Step(e).pending == {}
  {
    match e
    case Start => SwitchKeepsIndex(w, true);
    case Stop => SwitchKeepsIndex(w, false);
    case Tick(order, outcomes, online) => TickKeepsIndex(w, order, outcomes, online);
    case QuickPlayAsked(uid, order) =>
      if w.Suitable(order).Some? {
        UserJoinKeepsIndex(w, w.Suitable(order).value, uid);
      } else {
        NewTableKeepsIndex(w, uid, SOLO, false);
      }
    case JoinAsked(uid, id) => UserJoinKeepsIndex(w, id, uid);
    case TableAsked(uid, playerMode, pointMode, isPrivate) => NewTableKeepsIndex(w, uid, playerMode, isPrivate);
    case LeaveAsked(uid) => if uid in w.index && w.index[uid] in w.matches { LeaveKeepsIndex(w, w.index[uid], uid); }
    case Disconnected(uid) => if uid in w.index && w.index[uid] in w.matches { LeaveKeepsIndex(w, w.index[uid], uid); }
    case SeatAsked(uid, seat) => if uid in w.index && w.index[uid] in w.matches { JoinKeepsIndex(w, w.index[uid], uid, false); }
  }

  // ----- whole runs -----

  function Run(w: World, events: seq<Event>): World
    decreases |events|
  {
    if events == [] then w else Run(w.Step(events[0]), events[1..])
  }

  lemma {:induction false} RunKeepsIndex(w: World, events: seq<Event>)
    requires IndexInv(w) && w.pending == {}
    ensures IndexInv(Run(w, events)) && Run(w, events).pending == {}
    decreases |events|
  {
    if events != [] {
      StepKeepsIndex(w, events[0]);
      RunKeepsIndex(w.Step(events[0]), events[1..]);
    }
  }

  /**
   Over every run, whoever asks: each entry of the index names a live match with that user in it, and
   no match has anybody twice.
   */
  lemma IndexAgrees(events: seq<Event>)
    ensures var w := Run(NEW_WORLD, events);
            && (forall uid :: uid in w.index ==> w.index[uid] in w.matches && w.matches[w.index[uid]].Has(uid))
            && (forall id :: id in w.matches ==> EachOnce(w.matches[id]))
  {
    RunKeepsIndex(NEW_WORLD, events);
    var w := Run(NEW_WORLD, events);
    forall uid | uid in w.index ensures w.index[uid] in w.matches && w.matches[w.index[uid]].Has(uid) {
      assert Indexed(w, uid);
    }
  }
}
