/**
 A deal that lets one seat win every trick: it gets the strongest cards of every suit, now and from
 the deck.
 */
module MatchDeals {
  import opened TressetteCards
  import opened TressetteMatch
  import opened MatchRounds

  /** The cards of the favoured seat: with two seats twenty of them, with four ten. */
  predicate Top(n: nat, c: int) {
    if n == SOLO then 0 <= c < 12 || 32 <= c < 40 else 0 <= c < 2 || 4 <= c < 12
  }

  /** No other card of its suit beats one of these. */
  lemma TopBeats(n: nat, c: int, d: int)
    requires IsCard(c) && IsCard(d) && Suit(c) == Suit(d) && Top(n, c) && !Top(n, d)
    ensures Strength(c) > Strength(d)
  {
    TablesAgree(c, d);
  }

  function Span(a: nat, b: nat): (s: seq<int>)
    requires a <= b
    ensures |s| == b - a && forall k :: 0 <= k < |s| ==> s[k] == a + k
  {
    seq(b - a, k => a + k)
  }

  lemma {:induction false} SpanCount(a: nat, b: nat, c: int)
    requires a <= b
    ensures multiset(Span(a, b))[c] == if a <= c < b then 1 else 0
    decreases b - a
  {
    if a < b {
      SpanCount(a, b - 1, c);
      assert Span(a, b) == Span(a, b - 1) + [b - 1];
    }
  }

  /** One card of each list in turn. */
  function Zip(a: seq<int>, b: seq<int>): (z: seq<int>)
    requires |a| == |b|
    ensures |z| == 2 * |a|
  {
    if a == [] then [] else [a[0]] + ([b[0]] + Zip(a[1..], b[1..]))
  }

  lemma {:induction false} ZipAt(a: seq<int>, b: seq<int>, k: nat)
    requires |a| == |b| && k < |a|
    ensures Zip(a, b)[2 * k] == a[k] && Zip(a, b)[2 * k + 1] == b[k]
  {
    if k > 0 { ZipAt(a[1..], b[1..], k - 1); }
  }

  lemma HeadsCount(x: int, y: int, s: seq<int>, c: int)
    ensures multiset([x] + ([y] + s))[c] == multiset(s)[c] + (if x == c then 1 else 0) + if y == c then 1 else 0
  {
  }

  lemma TailCount(s: seq<int>, c: int)
    requires s != []
    ensures multiset(s)[c] == multiset(s[1..])[c] + if s[0] == c then 1 else 0
  {
    assert s == [s[0]] + s[1..];
  }

  lemma {:induction false} ZipCount(a: seq<int>, b: seq<int>, c: int)
    requires |a| == |b|
    ensures multiset(Zip(a, b))[c] == multiset(a)[c] + multiset(b)[c]
  {
    if a != [] {
      ZipCount(a[1..], b[1..], c);
      HeadsCount(a[0], b[0], Zip(a[1..], b[1..]), c);
      TailCount(a, c);
      TailCount(b, c);
    }
  }

  /** The favoured hand holds every suit. */
  const TOP_HAND: seq<int> := Span(0, 2) + Span(4, 12)

  /** The cards of the other hands. */
  function OtherHands(n: nat): seq<int> {
    if n == SOLO then Span(12, 22) else Span(2, 4) + Span(12, 40)
  }

  /** With two seats the deck goes out from its back, one card to seat 0 and one to seat 1. */
  function DeckFor(n: nat, i: nat): seq<int> {
    var top, rest := Span(2, 4) + Span(32, 40), Span(22, 32);
    if n != SOLO then [] else if i == 0 then Zip(rest, top) else Zip(top, rest)
  }

  function HandsFor(n: nat, i: nat): (cards: seq<int>)
    requires (n == SOLO || n == DUO) && i < n
    ensures |cards| == HAND_SIZE * n
  {
    OtherHands(n)[..HAND_SIZE * i] + TOP_HAND + OtherHands(n)[HAND_SIZE * i..]
  }

  function TopDeal(n: nat, i: nat): (cards: seq<int>)
    requires (n == SOLO || n == DUO) && i < n
    ensures |cards| == 40
  {
    HandsFor(n, i) + DeckFor(n, i)
  }

  lemma HandsCount(n: nat, i: nat, c: int)
    requires (n == SOLO || n == DUO) && i < n
    ensures multiset(HandsFor(n, i))[c] == multiset(OtherHands(n))[c] + multiset(TOP_HAND)[c]
  {
    var rest := OtherHands(n);
    assert rest == rest[..HAND_SIZE * i] + rest[HAND_SIZE * i..];
  }

  lemma OthersCount(n: nat, c: int)
    requires n == SOLO || n == DUO
    ensures multiset(OtherHands(n))[c] ==
            if (n == SOLO && 12 <= c < 22) || (n == DUO && (2 <= c < 4 || 12 <= c < 40)) then 1 else 0
  {
    SpanCount(12, 22, c);
    SpanCount(2, 4, c);
    SpanCount(12, 40, c);
  }

  lemma DeckForCount(n: nat, i: nat, c: int)
    requires (n == SOLO || n == DUO) && i < n
    ensures multiset(DeckFor(n, i))[c] == if n == SOLO && (2 <= c < 4 || 22 <= c < 40) then 1 else 0
  {
    var top, rest := Span(2, 4) + Span(32, 40), Span(22, 32);
    SpanCount(2, 4, c);
    SpanCount(32, 40, c);
    SpanCount(22, 32, c);
    if n == SOLO {
      if i == 0 { ZipCount(rest, top, c); } else { ZipCount(top, rest, c); }
    }
  }

  lemma TopHandCount(c: int)
    ensures multiset(TOP_HAND)[c] == if 0 <= c < 2 || 4 <= c < 12 then 1 else 0
  {
    SpanCount(0, 2, c);
    SpanCount(4, 12, c);
  }

  /** It is a real shuffle. */
  lemma TopDealIsShuffled(n: nat, i: nat)
    requires (n == SOLO || n == DUO) && i < n
    ensures Shuffled(TopDeal(n, i))
  {
    forall c ensures multiset(TopDeal(n, i))[c] == multiset(FULL_DECK)[c] {
      HandsCount(n, i, c);
      OthersCount(n, c);
      DeckForCount(n, i, c);
      TopHandCount(c);
      DeckCopies(c);
    }
  }

  lemma SliceOf(a: seq<int>, b: seq<int>, lo: nat, hi: nat)
    requires lo <= hi <= |a + b|
    ensures hi <= |a| ==> (a + b)[lo..hi] == a[lo..hi]
    ensures |a| <= lo ==> (a + b)[lo..hi] == b[lo - |a|..hi - |a|]
  {
  }

  lemma HandIn(n: nat, i: nat, k: nat)
    requires (n == SOLO || n == DUO) && i < n && k < n
    ensures var hand := TopDeal(n, i)[HAND_SIZE * k..HAND_SIZE * k + HAND_SIZE];
            if k == i then hand == TOP_HAND else forall c :: c in hand ==> c in OtherHands(n)
  {
    var before, rest := OtherHands(n)[..HAND_SIZE * i], OtherHands(n)[HAND_SIZE * i..];
    var lo, hi := HAND_SIZE * k, HAND_SIZE * k + HAND_SIZE;
    SliceOf(HandsFor(n, i), DeckFor(n, i), lo, hi);
    SliceOf(before + TOP_HAND, rest, lo, hi);
    if k <= i { SliceOf(before, TOP_HAND, lo, hi); }
  }

  lemma OthersAreNotTop(n: nat, c: int)
    requires (n == SOLO || n == DUO) && c in OtherHands(n)
    ensures !Top(n, c)
  {
    OthersCount(n, c);
  }

  lemma TopHandIsTop(n: nat, c: int)
    requires (n == SOLO || n == DUO) && c in TOP_HAND
    ensures Top(n, c)
  {
    TopHandCount(c);
  }

  /** Seat `i` gets the favoured hand, no other seat any of these cards. */
  lemma HandOf(n: nat, i: nat, k: nat)
    requires (n == SOLO || n == DUO) && i < n && k < n
    ensures var hand := TopDeal(n, i)[HAND_SIZE * k..HAND_SIZE * k + HAND_SIZE];
            && (k == i ==> hand == TOP_HAND)
            && forall c :: c in hand ==> (Top(n, c) <==> k == i)
  {
    HandIn(n, i, k);
    forall c | c in TopDeal(n, i)[HAND_SIZE * k..HAND_SIZE * k + HAND_SIZE] ensures Top(n, c) <==> k == i {
      if k == i { TopHandIsTop(n, c); } else { OthersAreNotTop(n, c); }
    }
  }

  lemma TopHandHasAll(suit: int)
    requires 0 <= suit < 4
    ensures HasSuit(TOP_HAND, suit)
  {
    assert TOP_HAND[2 + suit] == 4 + suit;
    assert Suit(TOP_HAND[2 + suit]) == suit;
  }

  /** Who draws which card of the deck: the favoured seat exactly the favoured cards. */
  ghost predicate DeckSplit(n: nat, i: nat, deck: seq<int>) {
    && (n == SOLO ==> |deck| % 2 == 0)
    && (n != SOLO ==> deck == [])
    && forall k :: 0 <= k < |deck| ==> (Top(n, deck[k]) <==> (if k % 2 == 0 then 1 else 0) == i)
  }

  lemma ZipSplits(n: nat, i: nat, a: seq<int>, b: seq<int>)
    requires n == SOLO && i < n && |a| == |b|
    requires forall k :: 0 <= k < |a| ==> (Top(n, a[k]) <==> i == 1) && (Top(n, b[k]) <==> i == 0)
    ensures DeckSplit(n, i, Zip(a, b))
  {
    forall k | 0 <= k < 2 * |a| ensures Top(n, Zip(a, b)[k]) <==> (if k % 2 == 0 then 1 else 0) == i {
      var j := k / 2;
      assert k == 2 * j || k == 2 * j + 1;
      ZipAt(a, b, j);
    }
  }

  lemma DeckOf(n: nat, i: nat)
    requires (n == SOLO || n == DUO) && i < n
    ensures DeckSplit(n, i, TopDeal(n, i)[HAND_SIZE * n..])
  {
    assert TopDeal(n, i)[HAND_SIZE * n..] == DeckFor(n, i);
    if n == SOLO {
      var top, rest := Span(2, 4) + Span(32, 40), Span(22, 32);
      if i == 0 { ZipSplits(n, i, rest, top); } else { ZipSplits(n, i, top, rest); }
    }
  }
}
