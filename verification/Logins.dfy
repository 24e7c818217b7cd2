/**
 The login service: one uid per token, counted up. The count runs into the uids of the bots after
 900,000 tokens, and the registry's guarantees last exactly that long.
 */
module Logins {
  import opened Options
  import opened BotPool
  import opened Registry
  import opened RegistryIndex
  import opened RegistryRuns

  const FIRST_LOGIN_UID := 100_000
  /** How many tokens get a uid below every bot's. */
  const SAFE_TOKENS := BOT_START_UID - FIRST_LOGIN_UID

  datatype Logins = Logins(uidByToken: map<string, int>, nextUid: int) {

    /** An empty token is refused, a known one gets its uid back, a new one the next. */
    function Login(token: string): (Logins, Option<int>) {
      if token == "" then (this, None)
      else if token in uidByToken then (this, Some(uidByToken[token]))
      else (Logins(uidByToken[token := nextUid], nextUid + 1), Some(nextUid))
    }
  }

  const NO_LOGINS := Logins(map[], FIRST_LOGIN_UID)

  function LoginAll(l: Logins, tokens: seq<string>): Logins
    decreases |tokens|
  {
    if tokens == [] then l else LoginAll(l.Login(tokens[0]).0, tokens[1..])
  }

  class AuthService {
    var uidByToken: map<string, int>
    var nextUid: int

    ghost function State(): Logins
      reads this
    {
      Logins(uidByToken, nextUid)
    }

    constructor ()
      ensures State() == NO_LOGINS
    {
      uidByToken, nextUid := map[], FIRST_LOGIN_UID;
    }

    method Login(token: string) returns (uid: Option<int>)
      modifies this
      ensures (State(), uid) == old(State()).Login(token)
    {
      if token == "" {
        return None;
      }
      var found := GetOrCreateUid(token);
      uid := Some(found);
    }

    method GetOrCreateUid(token: string) returns (uid: int)
      requires token != ""
      modifies this
      ensures (State(), Some(uid)) == old(State()).Login(token)
    {
      if token in uidByToken {
        return uidByToken[token];
      }
      uid := nextUid;
      nextUid := nextUid + 1;
      uidByToken := uidByToken[token := uid];
    }
  }

  // ----- one uid per token -----

  ghost predicate Owns(l: Logins, token: string, uid: int) {
    token in l.uidByToken && l.uidByToken[token] == uid
  }

  ghost predicate Issued(l: Logins, uid: int) {
    exists token :: Owns(l, token, uid)
  }

  /** The tokens seen own the uids from the first to the last handed out, each exactly one. */
  ghost predicate Counted(l: Logins) {
    && l.nextUid == FIRST_LOGIN_UID + |l.uidByToken|
    && (forall uid :: Issued(l, uid) <==> FIRST_LOGIN_UID <= uid < l.nextUid)
    && (forall t, u, uid :: Owns(l, t, uid) && Owns(l, u, uid) ==> t == u)
  }

  lemma NewTokenKeepsCount(l: Logins, token: string)
    requires Counted(l) && token != "" && token !in l.uidByToken
    ensures Counted(l.Login(token).0)
  {
    var after := l.Login(token).0;
    assert after.uidByToken.Keys == l.uidByToken.Keys + {token};
    assert |after.uidByToken| == |after.uidByToken.Keys| == |l.uidByToken.Keys| + 1;
    forall t, uid ensures Owns(after, t, uid) <==> Owns(l, t, uid) || (t == token && uid == l.nextUid) {
    }
    assert !Issued(l, l.nextUid);
    forall uid ensures Issued(after, uid) <==> Issued(l, uid) || uid == l.nextUid {
      if uid == l.nextUid { assert Owns(after, token, uid); }
      if Issued(l, uid) {
        var t :| Owns(l, t, uid);
        assert Owns(after, t, uid);
      }
    }
    forall t, u, uid | Owns(after, t, uid) && Owns(after, u, uid) ensures t == u {
      if uid == l.nextUid {
        assert !Owns(l, t, uid) && !Owns(l, u, uid);
      }
    }
  }

  function Named(tokens: seq<string>): set<string> {
    set t | t in tokens && t != ""
  }

  lemma MoreNamed(tokens: seq<string>)
    requires tokens != []
    ensures Named(tokens) == Named([tokens[0]]) + Named(tokens[1..])
  {
    forall t ensures t in tokens <==> t == tokens[0] || t in tokens[1..] {
      assert tokens == [tokens[0]] + tokens[1..];
    }
  }

  lemma LoginKeys(l: Logins, token: string)
    ensures l.Login(token).0.uidByToken.Keys == l.uidByToken.Keys + Named([token])
  {
    assert token in [token];
  }

  lemma {:induction false} TokensSeen(l: Logins, tokens: seq<string>)
    ensures LoginAll(l, tokens).uidByToken.Keys == l.uidByToken.Keys + Named(tokens)
    decreases |tokens|
  {
    if tokens != [] {
      LoginKeys(l, tokens[0]);
      TokensSeen(l.Login(tokens[0]).0, tokens[1..]);
      MoreNamed(tokens);
    } else {
      assert Named(tokens) == {};
    }
  }

  lemma NobodyIsCounted()
    ensures Counted(NO_LOGINS)
  {
  }

  lemma LoginKeepsCount(l: Logins, token: string)
    requires Counted(l)
    ensures Counted(l.Login(token).0)
  {
    if token != "" && token !in l.uidByToken { NewTokenKeepsCount(l, token); }
  }

  lemma {:induction false} RunKeepsCount(l: Logins, tokens: seq<string>)
    requires Counted(l)
    ensures Counted(LoginAll(l, tokens))
    decreases |tokens|
  {
    if tokens != [] {
      LoginKeepsCount(l, tokens[0]);
      RunKeepsCount(l.Login(tokens[0]).0, tokens[1..]);
    }
  }

  /** Logging in is one to one: the tokens of a run own the uids from 100,000 up, one each. */
  lemma LoginsAreCounted(tokens: seq<string>)
    ensures var l := LoginAll(NO_LOGINS, tokens);
            && l.uidByToken.Keys == Named(tokens)
            && (forall uid :: Issued(l, uid) <==> 100_000 <= uid < 100_000 + |Named(tokens)|)
            && (forall t, u, uid :: Owns(l, t, uid) && Owns(l, u, uid) ==> t == u)
  {
    NobodyIsCounted();
    RunKeepsCount(NO_LOGINS, tokens);
    TokensSeen(NO_LOGINS, tokens);
    var l := LoginAll(NO_LOGINS, tokens);
    assert |l.uidByToken| == |l.uidByToken.Keys|;
  }

  /** Every uid handed out is a user's if and only if at most 900,000 tokens have been seen. */
  lemma UidsAreUsersIff(tokens: seq<string>)
    ensures var l := LoginAll(NO_LOGINS, tokens);
            (forall uid :: Issued(l, uid) ==> IsUser(uid)) <==> |Named(tokens)| <= 900_000
  {
    var l := LoginAll(NO_LOGINS, tokens);
    LoginsAreCounted(tokens);
    if |Named(tokens)| > SAFE_TOKENS { assert Issued(l, BOT_START_UID); }
  }

  lemma {:induction false} OwnerStays(l: Logins, tokens: seq<string>, token: string, uid: int)
    requires Owns(l, token, uid)
    ensures Owns(LoginAll(l, tokens), token, uid)
    decreases |tokens|
  {
    if tokens != [] { OwnerStays(l.Login(tokens[0]).0, tokens[1..], token, uid); }
  }

  /** Whoever logs in again, whatever logins came between, gets the same uid, and that changes nothing. */
  lemma SameTokenSameUid(l: Logins, token: string, between: seq<string>)
    requires token != ""
    ensures var (first, uid) := l.Login(token);
            uid.Some? && LoginAll(first, between).Login(token) == (LoginAll(first, between), uid)
  {
    var (first, uid) := l.Login(token);
    OwnerStays(first, between, token, uid.value);
  }

  // ----- what that means for the registry -----

  /** Whoever asks has logged in. */
  ghost predicate LoggedIn(l: Logins, e: Event) {
    Newcomer(e).Some? ==> Issued(l, Newcomer(e).value)
  }

  ghost predicate OrderlyRun(events: seq<Event>) {
    Settled(Run(NEW_WORLD, events)) && Allocated(Run(NEW_WORLD, events))
  }

  /** Every run of logged-in users keeps the registry in order while at most 900,000 tokens have been seen. */
  lemma OrderLasts(tokens: seq<string>, events: seq<Event>)
    requires |Named(tokens)| <= SAFE_TOKENS
    requires forall e :: e in events ==> LoggedIn(LoginAll(NO_LOGINS, tokens), e)
    ensures OrderlyRun(events)
  {
    UidsAreUsersIff(tokens);
    forall e | e in events ensures FromUser(e) {
      assert LoggedIn(LoginAll(NO_LOGINS, tokens), e);
    }
    NewWorldIsSettled();
    RunKeepsInv(NEW_WORLD, events);
    BotsAreAllocated(events);
  }

  lemma LostInTheTick(w: World, uid: int)
    requires uid == BOT_START_UID + BOTS - 1 && w.pool == NEW_POOL && w.running && w.pending == {}
    requires w.matches.Keys == {FIRST_MATCH_ID}
    requires w.matches[FIRST_MATCH_ID].seats == [Taken(uid, false), Free] && !w.matches[FIRST_MATCH_ID].doomed
    ensures var w' := w.Step(Tick([FIRST_MATCH_ID], map[FIRST_MATCH_ID := Outcome([], true, Waiting, false)], {uid}));
            uid in w'.pool.inUse && (forall id, i :: !SeatHolds(w', id, i, uid)) && !Allocated(w')
  {
    var o := Outcome([], true, Waiting, false);
    var outcomes := map[FIRST_MATCH_ID := o];
    var moved := w.With(FIRST_MATCH_ID, w.matches[FIRST_MATCH_ID].(state := Waiting, inGame := false));
    FullPoolHolds(BOTS);
    assert w.pool.Request().0 == Some(uid);
    var t := moved.matches[FIRST_MATCH_ID];
    assert t.seats[0].Taken? && !t.seats[0].isBot && t.seats[0].uid == uid && t.seats[1].Free?;
    assert t.HasPeople() && !t.Full() && t.IsPlayer(uid) && t.HasOnline({uid});
    var looped := w.LoopMatch(FIRST_MATCH_ID, o);
    assert looped == moved.(pool := w.pool.Request().1);
    assert w.Visit(FIRST_MATCH_ID, o, {uid}) == looped;
    assert looped.VisitAll([FIRST_MATCH_ID][1..], outcomes, {uid}) == looped;
    assert w.VisitAll([FIRST_MATCH_ID], outcomes, {uid}) == looped;
    var w' := looped.Flush();
    assert uid in w'.pool.inUse;
    forall id, i ensures !SeatHolds(w', id, i, uid) {
    }
  }

  /**
   A bot is lost that way: when the first bot the pool would hand out is a logged-in user waiting at a
   table, the tick that asks for a bot takes it from the pool and seats nobody.
   */
  lemma UserWithBotUidLosesTheBot()
    ensures var uid := BOT_START_UID + BOTS - 1;
            var order := [FIRST_MATCH_ID];
            var tick := Tick(order, map[FIRST_MATCH_ID := Outcome([], true, Waiting, false)], {uid});
            var w := Run(NEW_WORLD, [Start, QuickPlayAsked(uid, []), tick]);
            uid in w.pool.inUse && (forall id, i :: !SeatHolds(w, id, i, uid)) && !Allocated(w)
  {
    var uid := BOT_START_UID + BOTS - 1;
    var order := [FIRST_MATCH_ID];
    var tick := Tick(order, map[FIRST_MATCH_ID := Outcome([], true, Waiting, false)], {uid});
    var alone := NEW_WORLD.Step(Start).Step(QuickPlayAsked(uid, []));
    assert [Start, QuickPlayAsked(uid, []), tick][1..] == [QuickPlayAsked(uid, []), tick];
    assert [QuickPlayAsked(uid, []), tick][1..] == [tick] && [tick][1..] == [];
    assert Run(alone, [tick]) == Run(alone.Step(tick), []);
    assert alone.matches[FIRST_MATCH_ID].seats == [Taken(uid, false), Free];
    LostInTheTick(alone, uid);
  }
}
