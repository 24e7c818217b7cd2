/**
 The pool of bot uids: a list of free uids used from the back, and the set of uids in use.
 */
module BotPool {
  import opened Options

  const BOT_START_UID := 1_000_000
  const BOTS := 5

  predicate IsBot(uid: int) {
    BOT_START_UID <= uid < BOT_START_UID + BOTS
  }

  ghost predicate NoRepeats(s: seq<int>) {
    forall i, j :: 0 <= i < j < |s| ==> s[i] != s[j]
  }

  datatype Pool = Pool(available: seq<int>, inUse: set<int>) {

    /** The free list, without repeats, and the set in use partition the bot uids. */
    ghost predicate Valid() {
      && NoRepeats(available)
      && (forall uid :: uid in available ==> IsBot(uid) && uid !in inUse)
      && (forall uid :: uid in inUse ==> IsBot(uid))
      && (forall uid :: IsBot(uid) ==> uid in available || uid in inUse)
    }

    function Request(): (Option<int>, Pool) {
      if available == [] then (None, this)
      else
        var uid := available[|available| - 1];
        (Some(uid), Pool(available[..|available| - 1], inUse + {uid}))
    }

    function Release(uid: int): Pool {
      if uid in inUse then Pool(available + [uid], inUse - {uid}) else this
    }

    /** Releasing a seat's bots one after the other. */
    function ReleaseAll(uids: seq<int>): Pool {
      if uids == [] then this else ReleaseAll(uids[..|uids| - 1]).Release(uids[|uids| - 1])
    }
  }

  function FullPool(n: nat): seq<int> {
    if n == 0 then [] else FullPool(n - 1) + [BOT_START_UID + n - 1]
  }

  const NEW_POOL := Pool(FullPool(BOTS), {})

  lemma {:induction false} FullPoolHolds(n: nat)
    ensures |FullPool(n)| == n && forall i :: 0 <= i < n ==> FullPool(n)[i] == BOT_START_UID + i
  {
    if n > 0 { FullPoolHolds(n - 1); }
  }

  lemma NewPoolIsValid()
    ensures NEW_POOL.Valid()
  {
  }

  /** A request hands out a uid nobody has, or none when all are in use. */
  lemma RequestIsFresh(p: Pool)
    requires p.Valid()
    ensures var (uid, after) := p.Request();
            && after.Valid()
            && (uid.None? <==> forall u :: IsBot(u) ==> u in p.inUse)
            && (uid.None? ==> after == p)
            && (uid.Some? ==> IsBot(uid.value) && uid.value !in p.inUse && after.inUse == p.inUse + {uid.value})
  {
  }

  /** A release puts back exactly a uid in use. */
  lemma ReleaseReturns(p: Pool, uid: int)
    requires p.Valid()
    ensures p.Release(uid).Valid() && p.Release(uid).inUse == p.inUse - {uid}
  {
  }

  /** The free uids are a stack: what was released last is handed out next, and a request taken back is undone. */
  lemma PoolIsAStack(p: Pool, uid: int)
    requires p.Valid()
    ensures uid in p.inUse ==> p.Release(uid).Request() == (Some(uid), p)
    ensures p.Request().0.Some? ==> p.Request().1.Release(p.Request().0.value) == p
  {
    var (taken, after) := p.Request();
    if uid in p.inUse { assert p.inUse - {uid} + {uid} == p.inUse; }
    if taken.Some? {
      var n := |p.available| - 1;
      assert p.available == p.available[..n] + [p.available[n]];
      assert taken.value in p.available && after.inUse - {taken.value} == p.inUse;
    }
  }

  lemma {:induction false} ReleaseAllReturns(p: Pool, uids: seq<int>)
    requires p.Valid()
    ensures p.ReleaseAll(uids).Valid() && p.ReleaseAll(uids).inUse == p.inUse - set u | u in uids
  {
    if uids != [] {
      var n := |uids| - 1;
      ReleaseAllReturns(p, uids[..n]);
      ReleaseReturns(p.ReleaseAll(uids[..n]), uids[n]);
      assert uids == uids[..n] + [uids[n]];
    }
  }

  function AllBots(n: nat): (all: set<int>)
    ensures forall uid :: uid in all <==> BOT_START_UID <= uid < BOT_START_UID + n
    ensures |all| == n
  {
    if n == 0 then {} else AllBots(n - 1) + {BOT_START_UID + n - 1}
  }

  lemma {:induction false} DistinctSize(s: seq<int>)
    requires NoRepeats(s)
    ensures |set u | u in s| == |s|
  {
    if s != [] {
      var n := |s| - 1;
      DistinctSize(s[..n]);
      assert (set u | u in s) == (set u | u in s[..n]) + {s[n]};
    } else {
      assert (set u | u in s) == {};
    }
  }

  /** The two parts always count the five uids once each. */
  lemma PoolSizes(p: Pool)
    requires p.Valid()
    ensures |p.available| + |p.inUse| == BOTS
  {
    var free := set u | u in p.available;
    DistinctSize(p.available);
    forall uid ensures uid in free + p.inUse <==> uid in AllBots(BOTS) {
      assert IsBot(uid) <==> uid in AllBots(BOTS);
    }
    assert free !! p.inUse && free + p.inUse == AllBots(BOTS);
  }

  class UsersInfoMgr {
    var available: seq<int>
    var inUse: set<int>

    ghost function State(): Pool
      reads this
    {
      Pool(available, inUse)
    }

    constructor ()
      ensures State() == NEW_POOL
    {
      var uids: seq<int> := [];
      for i := 0 to BOTS
        invariant uids == FullPool(i)
      {
        uids := uids + [BOT_START_UID + i];
      }
      available, inUse := uids, {};
    }

    /** -1 when every bot is in use. */
    method RequestBot() returns (uid: int)
      modifies this
      ensures var (got, after) := old(State()).Request();
              State() == after && uid == (if got.Some? then got.value else -1)
    {
      if available == [] {
        return -1;
      }
      uid := available[|available| - 1];
      available := available[..|available| - 1];
      inUse := inUse + {uid};
    }

    method ReleaseBot(uid: int)
      modifies this
      ensures State() == old(State()).Release(uid)
    {
      if uid in inUse {
        inUse := inUse - {uid};
        available := available + [uid];
      }
    }
  }
}
