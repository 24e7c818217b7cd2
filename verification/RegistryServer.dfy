/**
 The registry object and its loops. Each method is proved to take the object, with the bot pool it
 shares, from the state it was in to the state `Registry` gives. Matches are values in the
 registry's map.
 */
module RegistryServer {
  import opened Options
  import opened Sets
  import opened BotPool
  import opened Registry
  import opened RegistryIndex
  import opened RegistryRuns

  function SeatUids(seats: seq<Seat>): set<int> {
    set i | 0 <= i < |seats| && seats[i].Taken? :: seats[i].uid
  }

  lemma MoreSeats(seats: seq<Seat>, i: nat)
    requires i < |seats|
    ensures SeatUids(seats[..i + 1]) == SeatUids(seats[..i]) + (if seats[i].Taken? then {seats[i].uid} else {})
  {
  }

  /** Forget the users of the seats, one seat after the other. */
  method EraseSeats(index: map<int, int>, seats: seq<Seat>) returns (left: map<int, int>)
    ensures left == index - SeatUids(seats)
  {
    left := index;
    assert seats[..0] == [];
    for i := 0 to |seats|
      invariant left == index - SeatUids(seats[..i])
    {
      MoreSeats(seats, i);
      if seats[i].Taken? {
        left := left - {seats[i].uid};
      }
    }
    assert seats[..|seats|] == seats;
  }

  method EraseViewers(index: map<int, int>, viewers: set<int>) returns (left: map<int, int>)
    ensures left == index - viewers
  {
    left := index;
    var todo := viewers;
    while todo != {}
      invariant todo <= viewers && left == index - (viewers - todo)
    {
      var uid := PickOne(todo);
      left := left - {uid};
      todo := todo - {uid};
    }
  }

  lemma KeepsOrder(w: World, e: Event)
    ensures Settled(w) && FromUser(e) ==> Settled(w.Step(e))
  {
    if Settled(w) && FromUser(e) { StepKeepsInv(w, e); }
  }

  lemma MorePeople(w: World, ids: set<int>, id: int)
    ensures w.People(ids + {id}) == w.People(ids) + if id in w.matches then PeopleOf(w.matches[id]) else {}
  {
    forall uid ensures uid in w.People(ids + {id}) <==>
                       uid in w.People(ids) || (id in w.matches && uid in PeopleOf(w.matches[id])) {
    }
  }

  class MatchRegistry {
    const users: UsersInfoMgr
    var matches: map<int, Table>
    var index: map<int, int>
    var pending: set<int>
    var nextId: int
    var running: bool

    ghost function State(): World
      reads this, users
    {
      World(users.State(), matches, index, pending, nextId, running)
    }

    /** The pool never holds -1, its answer for an empty pool. */
    ghost predicate Valid()
      reads users
    {
      users.State().Valid()
    }

    constructor (users: UsersInfoMgr)
      requires users.State() == NEW_POOL
      ensures this.users == users && State() == NEW_WORLD && Valid()
    {
      NewPoolIsValid();
      this.users := users;
      matches, index, pending, nextId, running := map[], map[], {}, FIRST_MATCH_ID, false;
    }

    // ----- a match and its people -----

    method TryJoin(id: int, uid: int, isBot: bool) returns (error: JoinError)
      requires id in matches
      modifies `matches
      ensures (State(), error) == old(State()).TryJoin(id, uid, isBot)
    {
      var t := matches[id];
      if SeatOf(t.seats, uid) >= 0 {
        return AlreadyInMatch;
      }
      t := t.(viewers := t.viewers - {uid});
      var slot := FreeSeat(t.seats);
      if slot >= 0 {
        t := t.(seats := t.seats[slot := Taken(uid, isBot)]);
      } else {
        t := t.(viewers := t.viewers + {uid});
      }
      matches := matches[id := t];
      assert (old(matches[id].viewers) - {uid}) + {uid} == old(matches[id].viewers) + {uid};
      return Success;
    }

    method OnUserRemoved(uid: int, id: int)
      modifies `index
      ensures index == old(State()).Unindexed(id, uid)
    {
      if uid in index && index[uid] == id {
        index := index - {uid};
      }
    }

    method UserLeave(id: int, uid: int)
      requires id in matches
      requires Valid()
      modifies `matches, `index, users
      ensures Valid()
      ensures State() == old(State()).UserLeave(id, uid)
    {
      var t := matches[id];
      var i := SeatOf(t.seats, uid);
      if i < 0 && uid !in t.viewers {
        return;
      }
      if i >= 0 {
        if t.seats[i].isBot {
          ReleaseReturns(users.State(), uid);
          users.ReleaseBot(uid);
        }
        t := t.(seats := t.seats[i := Free]);
      }
      t := t.(viewers := t.viewers - {uid});
      if t.state.PreparingStart? {
        t := t.(state := Waiting);
      }
      matches := matches[id := t];
      OnUserRemoved(uid, id);
    }

    method KickAll(id: int, uids: seq<int>)
      requires id in matches
      requires Valid()
      modifies `matches, `index, users
      ensures Valid()
      ensures id in matches && State() == old(State()).KickAll(id, uids)
    {
      for i := 0 to |uids|
        invariant Valid() && id in matches && State().KickAll(id, uids[i..]) == old(State()).KickAll(id, uids)
      {
        assert uids[i..][1..] == uids[i + 1..];
        UserLeave(id, uids[i]);
      }
    }

    method GenerateBot(id: int)
      requires id in matches
      requires Valid()
      modifies `matches, users
      ensures Valid()
      ensures State() == old(State()).GenerateBot(id)
    {
      if !matches[id].HasPeople() || matches[id].Full() {
        return;
      }
      RequestIsFresh(users.State());
      var uid := users.RequestBot();
      if uid == -1 {
        return;
      }
      var _ := TryJoin(id, uid, true);
    }

    method LoopMatch(id: int, o: Outcome)
      requires id in matches
      requires Valid()
      modifies `matches, `index, users
      ensures Valid()
      ensures id in matches && State() == old(State()).LoopMatch(id, o)
    {
      KickAll(id, o.kicked);
      matches := matches[id := matches[id].(state := o.state, inGame := o.inGame)];
      if o.wantsBot {
        GenerateBot(id);
      }
    }

    // ----- destruction -----

    method RequestDestroy(id: int)
      requires id in matches
      requires Valid()
      modifies `matches, `pending, users
      ensures Valid()
      ensures State() == old(State()).RequestDestroy(id)
    {
      var seats := matches[id].seats;
      matches := matches[id := matches[id].(doomed := true)];
      assert seats[..0] == [];
      for i := 0 to |seats|
        invariant Valid() && users.State() == old(users.State()).ReleaseAll(BotsOf(seats[..i]))
        invariant matches == old(matches)[id := old(matches[id]).(doomed := true)] && pending == old(pending)
      {
        assert seats[..i + 1][..i] == seats[..i];
        var before := BotsOf(seats[..i]);
        assert before + [] == before;
        if seats[i].Taken? && seats[i].isBot {
          assert (before + [seats[i].uid])[..|before|] == before;
          ReleaseReturns(users.State(), seats[i].uid);
          users.ReleaseBot(seats[i].uid);
        }
      }
      assert seats[..|seats|] == seats;
      pending := pending + {id};
    }

    method Visit(id: int, o: Outcome, online: set<int>)
      requires Valid()
      modifies `matches, `index, `pending, users
      ensures Valid()
      ensures State() == old(State()).Visit(id, o, online)
    {
      if id !in matches || matches[id].doomed {
        return;
      }
      LoopMatch(id, o);
      if !matches[id].HasOnline(online) {
        RequestDestroy(id);
      }
    }

    method DestroyNow(id: int)
      modifies `matches, `index
      ensures matches == old(matches) - {id}
      ensures index == if id in old(matches) then old(index) - PeopleOf(old(matches[id])) else old(index)
    {
      if id !in matches {
        return;
      }
      var t := matches[id];
      index := EraseSeats(index, t.seats);
      index := EraseViewers(index, t.viewers);
      matches := matches - {id};
    }

    method Flush()
      modifies `matches, `index, `pending
      ensures State() == old(State()).Flush()
    {
      var todo := pending;
      pending := {};
      ghost var w := old(State());
      while todo != {}
        invariant todo <= w.pending && pending == {}
        invariant matches == w.matches - (w.pending - todo) && index == w.index - w.People(w.pending - todo)
      {
        var id := PickOne(todo);
        ghost var done := w.pending - todo;
        MorePeople(w, done, id);
        DestroyNow(id);
        todo := todo - {id};
        assert w.pending - todo == done + {id};
      }
      assert w.pending - todo == w.pending;
    }

    method Update(order: seq<int>, outcomes: map<int, Outcome>, online: set<int>)
      requires Valid()
      modifies this, users
      ensures Valid()
      ensures State() == old(State()).Update(order, outcomes, online)
    {
      if !running {
        return;
      }
      ghost var w := State();
      for i := 0 to |order|
        invariant Valid() && State().VisitAll(order[i..], outcomes, online) == w.VisitAll(order, outcomes, online)
      {
        assert order[i..][1..] == order[i + 1..];
        var o := if order[i] in outcomes then outcomes[order[i]] else Outcome([], false, Waiting, false);
        Visit(order[i], o, online);
      }
      Flush();
    }

    // ----- requests -----

    method UserJoinMatch(id: int, uid: int)
      modifies this
      ensures State() == old(State()).UserJoinMatch(id, uid)
    {
      if id !in matches {
        return;
      }
      var error := TryJoin(id, uid, false);
      if error.Success? {
        index := index[uid := id];
      }
    }

    method CreateMatch(playerMode: nat, isPrivate: bool) returns (id: int)
      modifies this
      ensures id == old(nextId) && State() == old(State()).CreateMatch(playerMode, isPrivate)
    {
      id := nextId;
      nextId := nextId + 1;
      var seats: seq<Seat> := [];
      for i := 0 to playerMode
        invariant seats == seq(i, _ => Free)
      {
        seats := seats + [Free];
      }
      matches := matches[id := Table(seats, {}, Waiting, false, true, false)];
    }

    method FindSuitable(order: seq<int>) returns (id: Option<int>)
      ensures id == State().Suitable(order)
    {
      for i := 0 to |order|
        invariant State().Suitable(order[i..]) == State().Suitable(order)
      {
        assert order[i..][1..] == order[i + 1..];
        if order[i] in matches && matches[order[i]].isPublic && matches[order[i]].state.Waiting? && !matches[order[i]].Full() {
          return Some(order[i]);
        }
      }
      return None;
    }

    method HandleQuickPlay(uid: int, order: seq<int>)
      modifies this
      ensures State() == old(State()).QuickPlay(uid, order)
    {
      if uid in index && index[uid] in matches {
        return;
      }
      var found := FindSuitable(order);
      var id := if found.Some? then found.value else 0;
      if found.None? {
        id := CreateMatch(SOLO, false);
      }
      UserJoinMatch(id, uid);
    }

    method ReceivedCreateTable(uid: int, playerMode: nat, pointMode: int, isPrivate: bool)
      modifies this
      ensures State() == old(State()).CreateTable(uid, playerMode, pointMode, isPrivate)
    {
      if pointMode != 11 && pointMode != 21 {
        return;
      }
      if playerMode != SOLO && playerMode != DUO {
        return;
      }
      if uid in index {
        return;
      }
      var id := CreateMatch(playerMode, isPrivate);
      UserJoinMatch(id, uid);
    }

    method Handle(e: Event)
      requires Valid()
      modifies this, users
      ensures Valid()
      ensures State() == old(State()).Step(e)
      ensures old(Settled(State())) && FromUser(e) ==> Settled(State())
    {
      KeepsOrder(State(), e);
      match e
      case Start => running := true;
      case Stop => running := false;
      case Tick(order, outcomes, online) => Update(order, outcomes, online);
      case QuickPlayAsked(uid, order) => HandleQuickPlay(uid, order);
      case JoinAsked(uid, id) => UserJoinMatch(id, uid);
      case TableAsked(uid, playerMode, pointMode, isPrivate) => ReceivedCreateTable(uid, playerMode, pointMode, isPrivate);
      case LeaveAsked(uid) =>
        if uid in index && index[uid] in matches {
          var t := matches[index[uid]];
          if !t.doomed && !(t.inGame && t.IsPlayer(uid)) { UserLeave(index[uid], uid); }
        }
      case Disconnected(uid) =>
        if uid in index && index[uid] in matches {
          var t := matches[index[uid]];
          if !(t.inGame && t.IsPlayer(uid)) { UserLeave(index[uid], uid); }
        }
      case SeatAsked(uid, seat) =>
        if uid in index && index[uid] in matches {
          var t := matches[index[uid]];
          if !t.doomed && uid in t.viewers && 0 <= seat < |t.seats| { var _ := TryJoin(index[uid], uid, false); }
        }
    }
  }
}
