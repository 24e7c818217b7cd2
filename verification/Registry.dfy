/**
 The match registry: which matches live, who sits in or watches each, which match each user's
 packets go to, and the bot pool the matches draw from. Of a match it keeps the people and the
 flags the registry looks at; what a tick of the match does to its people (who is kicked, whether
 a bot is wanted, which state it ends in) comes in with the tick.
 */
module Registry {
  import opened Options
  import opened BotPool

  const FIRST_MATCH_ID := 1000
  const SOLO := 2
  const DUO := 4

  datatype MatchState = Waiting | PreparingStart | Playing | Ended

  datatype Seat = Free | Taken(uid: int, isBot: bool)

  datatype JoinError = Success | AlreadyInMatch | MatchNotFound

  /** Users have uids of their own; a bot's uid is never a user's. */
  predicate IsUser(uid: int) {
    uid >= 0 && !IsBot(uid)
  }

  function SeatOf(seats: seq<Seat>, uid: int): (i: int)
    ensures i == -1 || (0 <= i < |seats| && seats[i].Taken? && seats[i].uid == uid)
    ensures i == -1 ==> forall k :: 0 <= k < |seats| ==> !(seats[k].Taken? && seats[k].uid == uid)
  {
    if seats == [] then -1
    else if seats[0].Taken? && seats[0].uid == uid then 0
    else
      var i := SeatOf(seats[1..], uid);
      if i < 0 then
        assert forall k :: 0 < k < |seats| ==> seats[k] == seats[1..][k - 1];
        -1
      else i + 1
  }

  function FreeSeat(seats: seq<Seat>): (i: int)
    ensures i == -1 || (0 <= i < |seats| && seats[i].Free?)
    ensures i == -1 ==> forall k :: 0 <= k < |seats| ==> seats[k].Taken?
  {
    if seats == [] then -1
    else if seats[0].Free? then 0
    else
      var i := FreeSeat(seats[1..]);
      if i < 0 then
        assert forall k :: 0 < k < |seats| ==> seats[k] == seats[1..][k - 1];
        -1
      else i + 1
  }

  function BotsOf(seats: seq<Seat>): seq<int> {
    if seats == [] then []
    else
      var last := seats[|seats| - 1];
      BotsOf(seats[..|seats| - 1]) + if last.Taken? && last.isBot then [last.uid] else []
  }

  datatype Table = Table(seats: seq<Seat>, viewers: set<int>, state: MatchState, inGame: bool, isPublic: bool, doomed: bool) {

    predicate IsPlayer(uid: int) {
      SeatOf(seats, uid) >= 0
    }

    predicate Has(uid: int) {
      IsPlayer(uid) || uid in viewers
    }

    predicate HasBot(uid: int) {
      var i := SeatOf(seats, uid);
      i >= 0 && seats[i].isBot
    }

    predicate Full() {
      FreeSeat(seats) < 0
    }

    predicate HasPeople() {
      viewers != {} || exists i :: 0 <= i < |seats| && seats[i].Taken? && !seats[i].isBot
    }

    predicate HasOnline(online: set<int>) {
      || (exists uid :: uid in viewers && uid in online)
      || (exists i :: 0 <= i < |seats| && seats[i].Taken? && !seats[i].isBot && seats[i].uid in online)
    }

    /** The bots of the seats, in seat order. */
    function Bots(): seq<int> {
      BotsOf(seats)
    }

    /** A seat if there is one, otherwise a place among the viewers. */
    function TryJoin(uid: int, isBot: bool): Option<Table> {
      if IsPlayer(uid) then None
      else
        var i := FreeSeat(seats);
        if i >= 0 then Some(this.(seats := seats[i := Taken(uid, isBot)], viewers := viewers - {uid}))
        else Some(this.(viewers := viewers + {uid}))
    }

    function Without(uid: int): Table {
      var i := SeatOf(seats, uid);
      this.(seats := if i >= 0 then seats[i := Free] else seats, viewers := viewers - {uid},
            state := if state.PreparingStart? then Waiting else state)
    }
  }

  /** A match is made public, and nothing makes it private. */
  function NewTable(playerMode: nat): Table {
    Table(seq(playerMode, _ => Free), {}, Waiting, false, true, false)
  }

  /** What a match's own loop does to its people. */
  datatype Outcome = Outcome(
    kicked: seq<int>,       // seats that leave at the end of a game, in order
    wantsBot: bool,         // the match waits for players and its bot interval is over
    state: MatchState, inGame: bool)

  datatype Event =
    | Start
    | Stop
    | Tick(order: seq<int>, outcomes: map<int, Outcome>, online: set<int>)
    | QuickPlayAsked(uid: int, order: seq<int>)
    | JoinAsked(uid: int, id: int)
    | TableAsked(uid: int, playerMode: nat, pointMode: int, isPrivate: bool)
    | LeaveAsked(uid: int)
    | Disconnected(uid: int)
    | SeatAsked(uid: int, seat: int)

  function PeopleOf(t: Table): set<int> {
    t.viewers + set i | 0 <= i < |t.seats| && t.seats[i].Taken? :: t.seats[i].uid
  }

  datatype World = World(
    pool: Pool, matches: map<int, Table>, index: map<int, int>, pending: set<int>, nextId: int, running: bool)
  {
    function With(id: int, t: Table): World {
      this.(matches := matches[id := t])
    }

    // ----- a match and its people -----

    function TryJoin(id: int, uid: int, isBot: bool): (r: (World, JoinError))
      requires id in matches
    {
      var t := matches[id].TryJoin(uid, isBot);
      if t.None? then (this, AlreadyInMatch) else (With(id, t.value), Success)
    }

    /** The index forgets the user only if it names the match that was left. */
    function Unindexed(id: int, uid: int): map<int, int> {
      if uid in index && index[uid] == id then index - {uid} else index
    }

    /** A bot that leaves goes back to the pool. */
    function UserLeave(id: int, uid: int): World
      requires id in matches
    {
      var t := matches[id];
      if !t.Has(uid) then this
      else
        With(id, t.Without(uid)).(
          pool := if t.HasBot(uid) then pool.Release(uid) else pool,
          index := Unindexed(id, uid))
    }

    function KickAll(id: int, uids: seq<int>): World
      requires id in matches
      decreases |uids|
    {
      if uids == [] then this else UserLeave(id, uids[0]).KickAll(id, uids[1..])
    }

    function GenerateBot(id: int): World
      requires id in matches
    {
      if !matches[id].HasPeople() || matches[id].Full() then this
      else
        var (uid, after) := pool.Request();
        if uid.None? then this
        else this.(pool := after).TryJoin(id, uid.value, true).0
    }

    function LoopMatch(id: int, o: Outcome): World
      requires id in matches
    {
      var kicked := KickAll(id, o.kicked);
      if id !in kicked.matches then kicked
      else
        var moved := kicked.With(id, kicked.matches[id].(state := o.state, inGame := o.inGame));
        if o.wantsBot then moved.GenerateBot(id) else moved
    }

    // ----- destruction -----

    /** A match that is to be destroyed gives its bots back at once. */
    function RequestDestroy(id: int): World
      requires id in matches
    {
      With(id, matches[id].(doomed := true)).(pool := pool.ReleaseAll(matches[id].Bots()), pending := pending + {id})
    }

    function Visit(id: int, o: Outcome, online: set<int>): World {
      if id !in matches || matches[id].doomed then this
      else
        var looped := LoopMatch(id, o);
        if id in looped.matches && !looped.matches[id].HasOnline(online) then looped.RequestDestroy(id) else looped
    }

    function VisitAll(order: seq<int>, outcomes: map<int, Outcome>, online: set<int>): World
      decreases |order|
    {
      if order == [] then this
      else
        var o := if order[0] in outcomes then outcomes[order[0]] else Outcome([], false, Waiting, false);
        Visit(order[0], o, online).VisitAll(order[1..], outcomes, online)
    }

    function People(ids: set<int>): set<int> {
      set id, uid | id in ids && id in matches && uid in PeopleOf(matches[id]) :: uid
    }

    /** Every pending match goes, with the index entries of its people. */
    function Flush(): World {
      this.(matches := matches - pending, index := index - People(pending), pending := {})
    }

    function Update(order: seq<int>, outcomes: map<int, Outcome>, online: set<int>): World {
      if !running then this else VisitAll(order, outcomes, online).Flush()
    }

    // ----- requests -----

    function UserJoinMatch(id: int, uid: int): World {
      if id !in matches then this
      else
        var (joined, error) := TryJoin(id, uid, false);
        if error.Success? then joined.(index := index[uid := id]) else this
    }

    /** `create_match` does not look at the private flag it is given. */
    function CreateMatch(playerMode: nat, isPrivate: bool): World {
      With(nextId, NewTable(playerMode)).(nextId := nextId + 1)
    }

    /** The first public match that waits for players, in the order the table is walked. */
    function Suitable(order: seq<int>): Option<int> {
      if order == [] then None
      else
        var id := order[0];
        if id in matches && matches[id].isPublic && matches[id].state.Waiting? && !matches[id].Full() then Some(id)
        else Suitable(order[1..])
    }

    /** A user of a match comes back to it; reconnecting moves nobody. */
    function QuickPlay(uid: int, order: seq<int>): World {
      if uid in index && index[uid] in matches then this
      else
        var id := Suitable(order);
        if id.Some? then UserJoinMatch(id.value, uid)
        else CreateMatch(SOLO, false).UserJoinMatch(nextId, uid)
    }

    function CreateTable(uid: int, playerMode: nat, pointMode: int, isPrivate: bool): World {
      if pointMode != 11 && pointMode != 21 then this
      else if playerMode != SOLO && playerMode != DUO then this
      else if uid in index then this
      else CreateMatch(playerMode, isPrivate).UserJoinMatch(nextId, uid)
    }

    /** During a game a seated user only registers the wish to leave. */
    function LeavePacket(uid: int): World {
      if uid !in index || index[uid] !in matches then this
      else
        var id := index[uid];
        if matches[id].doomed || (matches[id].inGame && matches[id].IsPlayer(uid)) then this
        else UserLeave(id, uid)
    }

    function Disconnect(uid: int): World {
      if uid !in index || index[uid] !in matches then this
      else
        var id := index[uid];
        if matches[id].inGame && matches[id].IsPlayer(uid) then this else UserLeave(id, uid)
    }

    /** A viewer asks for a seat. */
    function ViewerEnters(uid: int, seat: int): World {
      if uid !in index || index[uid] !in matches then this
      else
        var id := index[uid];
        if matches[id].doomed || uid !in matches[id].viewers || seat < 0 || seat >= |matches[id].seats| then this
        else TryJoin(id, uid, false).0
    }

    function Step(e: Event): World {
      match e
      case Start => this.(running := true)
      case Stop => this.(running := false)
      case Tick(order, outcomes, online) => Update(order, outcomes, online)
      case QuickPlayAsked(uid, order) => QuickPlay(uid, order)
      case JoinAsked(uid, id) => UserJoinMatch(id, uid)
      case TableAsked(uid, playerMode, pointMode, isPrivate) => CreateTable(uid, playerMode, pointMode, isPrivate)
      case LeaveAsked(uid) => LeavePacket(uid)
      case Disconnected(uid) => Disconnect(uid)
      case SeatAsked(uid, seat) => ViewerEnters(uid, seat)
    }
  }

  const NEW_WORLD := World(NEW_POOL, map[], map[], {}, FIRST_MATCH_ID, false)
}
