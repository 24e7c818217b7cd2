/**
 Scopa: which table cards a played card may take. A single card of the same value must be taken
 when there is one; otherwise any set of cards adding up to the value may be.
 A card is its id; its suit is `id % 4` and its value, which is its rank, `id / 4 + 1`.
 An option is the list of table indices it takes; its label and counts follow from the list.
 */
module ScopaCaptures {

  function ValueOf(card: int): int {
    card / 4 + 1
  }

  function SuitOf(card: int): int {
    card % 4
  }

  const DENARI := 0

  function PrimieraValue(card: int): int {
    match ValueOf(card)
    case 7 => 21
    case 6 => 18
    case 1 => 16
    case 5 => 15
    case 4 => 14
    case 3 => 13
    case 2 => 12
    case _ => 10
  }

  function Values(cards: seq<int>): (v: seq<int>)
    ensures |v| == |cards| && forall i :: 0 <= i < |cards| ==> v[i] == ValueOf(cards[i])
  {
    seq(|cards|, i requires 0 <= i < |cards| => ValueOf(cards[i]))
  }

  // ----- labels and their order -----

  function RankLabel(rank: int): string {
    if rank == 1 then "A" else if rank == 8 then "F" else if rank == 9 then "C" else if rank == 10 then "R"
    else if 2 <= rank <= 7 then [('0' as int + rank) as char] else "?"
  }

  function SuitShort(suit: int): string {
    if suit == 0 then "D" else if suit == 1 then "C" else if suit == 2 then "S" else "B"
  }

  function Label(table: seq<int>, indices: seq<int>): string {
    if indices == [] then ""
    else
      var card := if 0 <= indices[0] < |table| then table[indices[0]] else 0;
      var rest := Label(table, indices[1..]);
      RankLabel(ValueOf(card)) + SuitShort(SuitOf(card)) + (if |indices| > 1 then "+" + rest else "")
  }

  predicate LexLess(a: string, b: string) {
    if b == [] then false
    else if a == [] then true
    else a[0] < b[0] || (a[0] == b[0] && LexLess(a[1..], b[1..]))
  }

  /** More cards first, then by label. */
  predicate Better(table: seq<int>, a: seq<int>, b: seq<int>) {
    if |a| != |b| then |a| > |b| else LexLess(Label(table, a), Label(table, b))
  }

  lemma {:induction false} LexLessTransitive(a: string, b: string, c: string)
    requires !LexLess(b, a) && !LexLess(c, b)
    ensures !LexLess(c, a)
  {
    if a != [] && b != [] && c != [] && a[0] == b[0] && b[0] == c[0] {
      LexLessTransitive(a[1..], b[1..], c[1..]);
    }
  }

  lemma {:induction false} LexLessAsymmetric(a: string, b: string)
    requires LexLess(a, b)
    ensures !LexLess(b, a)
  {
    if a != [] && b != [] && a[0] == b[0] { LexLessAsymmetric(a[1..], b[1..]); }
  }

  ghost predicate InOrder(table: seq<int>, options: seq<seq<int>>) {
    forall i, j :: 0 <= i < j < |options| ==> !Better(table, options[j], options[i])
  }

  function Place(table: seq<int>, options: seq<seq<int>>, x: seq<int>): seq<seq<int>> {
    if options == [] || Better(table, x, options[0]) then [x] + options
    else [options[0]] + Place(table, options[1..], x)
  }

  function SortOptions(table: seq<int>, options: seq<seq<int>>): seq<seq<int>> {
    if options == [] then [] else Place(table, SortOptions(table, options[1..]), options[0])
  }

  lemma {:induction false} PlaceKeeps(table: seq<int>, options: seq<seq<int>>, x: seq<int>)
    ensures multiset(Place(table, options, x)) == multiset(options) + multiset{x}
  {
    if options != [] && !Better(table, x, options[0]) {
      PlaceKeeps(table, options[1..], x);
      assert options == [options[0]] + options[1..];
    }
  }

  lemma BetterAsymmetric(table: seq<int>, a: seq<int>, b: seq<int>)
    requires Better(table, a, b)
    ensures !Better(table, b, a)
  {
    if |a| == |b| { LexLessAsymmetric(Label(table, a), Label(table, b)); }
  }

  lemma BetterTransitive(table: seq<int>, a: seq<int>, b: seq<int>, c: seq<int>)
    requires Better(table, a, b) && !Better(table, c, b)
    ensures !Better(table, c, a)
  {
    if |a| == |b| {
      LexLessAsymmetric(Label(table, a), Label(table, b));
      if |c| == |b| { LexLessTransitive(Label(table, a), Label(table, b), Label(table, c)); }
    }
  }

  lemma {:induction false} PlaceInOrder(table: seq<int>, options: seq<seq<int>>, x: seq<int>)
    requires InOrder(table, options)
    ensures InOrder(table, Place(table, options, x))
  {
    if options == [] {
    } else if Better(table, x, options[0]) {
      forall j | 0 <= j < |options| ensures !Better(table, options[j], x) {
        if j > 0 { BetterTransitive(table, x, options[0], options[j]); } else { BetterAsymmetric(table, x, options[0]); }
      }
    } else {
      PlaceInOrder(table, options[1..], x);
      PlaceKeeps(table, options[1..], x);
      var rest := Place(table, options[1..], x);
      forall j | 0 <= j < |rest| ensures !Better(table, rest[j], options[0]) {
        assert rest[j] in multiset(rest);
        if rest[j] != x {
          assert rest[j] in multiset(options[1..]);
          var k :| 0 <= k < |options| - 1 && options[1..][k] == rest[j];
          assert options[k + 1] == rest[j];
        }
      }
    }
  }

  /** Sorting keeps exactly the options and puts them in order. */
  lemma {:induction false} SortKeeps(table: seq<int>, options: seq<seq<int>>)
    ensures multiset(SortOptions(table, options)) == multiset(options)
    ensures InOrder(table, SortOptions(table, options))
  {
    if options != [] {
      SortKeeps(table, options[1..]);
      PlaceKeeps(table, SortOptions(table, options[1..]), options[0]);
      PlaceInOrder(table, SortOptions(table, options[1..]), options[0]);
      assert options == [options[0]] + options[1..];
    }
  }

  // ----- what may be taken -----

  function SumAt(values: seq<int>, indices: seq<int>): int {
    if indices == [] then 0
    else (if 0 <= indices[0] < |values| then values[indices[0]] else 0) + SumAt(values, indices[1..])
  }

  ghost predicate Increasing(indices: seq<int>) {
    forall i, j :: 0 <= i < j < |indices| ==> indices[i] < indices[j]
  }

  ghost predicate Within(indices: seq<int>, lo: int, hi: int) {
    forall i :: 0 <= i < |indices| ==> lo <= indices[i] < hi
  }

  /** Strictly increasing indices from `start` on whose values add up to `total`. */
  ghost predicate Selection(values: seq<int>, start: int, indices: seq<int>, total: int) {
    Increasing(indices) && Within(indices, start, |values|) && SumAt(values, indices) == total
  }

  predicate HasEqual(values: seq<int>, target: int) {
    target in values
  }

  /** The rules: an equal card alone, or, where there is none, a nonempty selection. */
  ghost predicate Allowed(values: seq<int>, target: int, indices: seq<int>) {
    if HasEqual(values, target) then |indices| == 1 && 0 <= indices[0] < |values| && values[indices[0]] == target
    else indices != [] && Selection(values, 0, indices, target)
  }

  ghost predicate Positive(values: seq<int>) {
    forall i :: 0 <= i < |values| ==> values[i] > 0
  }

  // ----- the search -----

  function Singles(values: seq<int>, target: int, n: nat): seq<seq<int>>
    requires n <= |values|
  {
    if n == 0 then []
    else Singles(values, target, n - 1) + if values[n - 1] == target then [[n - 1]] else []
  }

  function DfsFrom(values: seq<int>, current: seq<int>, i: nat, remaining: int): seq<seq<int>>
    requires i <= |values|
    decreases |values| - i, 0
  {
    if i == |values| then []
    else
      (if values[i] > remaining then [] else Dfs(values, current + [i], i + 1, remaining - values[i]))
      + DfsFrom(values, current, i + 1, remaining)
  }

  function Dfs(values: seq<int>, current: seq<int>, start: nat, remaining: int): seq<seq<int>>
    requires start <= |values|
    decreases |values| - start, 1
  {
    if remaining == 0 && current != [] then [current]
    else if remaining <= 0 then []
    else DfsFrom(values, current, start, remaining)
  }

  function CaptureOptions(played: int, table: seq<int>): seq<seq<int>> {
    var values := Values(table);
    if HasEqual(values, ValueOf(played)) then Singles(values, ValueOf(played), |values|)
    else SortOptions(table, Dfs(values, [], 0, ValueOf(played)))
  }

  // ----- exactness -----

  lemma {:induction false} SumIsPositive(values: seq<int>, indices: seq<int>)
    requires Positive(values) && Within(indices, 0, |values|)
    ensures SumAt(values, indices) >= 0
    ensures SumAt(values, indices) == 0 <==> indices == []
  {
    if indices != [] {
      assert Within(indices[1..], 0, |values|);
      SumIsPositive(values, indices[1..]);
    }
  }

  /** `x` extends `current` by a selection worth `remaining`. */
  ghost predicate Completes(values: seq<int>, current: seq<int>, start: int, remaining: int, x: seq<int>) {
    current <= x && Selection(values, start, x[|current|..], remaining)
  }

  lemma SelectionSplit(values: seq<int>, i: nat, rest: seq<int>, remaining: int)
    requires Positive(values) && i < |values| && remaining > 0
    ensures Selection(values, i, rest, remaining) <==>
            Selection(values, i + 1, rest, remaining) ||
            (rest != [] && rest[0] == i && Selection(values, i + 1, rest[1..], remaining - values[i]))
    ensures rest != [] && rest[0] == i ==> !Selection(values, i + 1, rest, remaining)
    ensures rest != [] && rest[0] == i && Selection(values, i + 1, rest[1..], remaining - values[i]) ==> values[i] <= remaining
  {
    if rest != [] {
      var tail := rest[1..];
      if Increasing(rest) {
        forall k | 0 <= k < |tail| ensures rest[0] < tail[k] {
          assert tail[k] == rest[k + 1];
        }
        assert Increasing(tail);
      }
      if Selection(values, i, rest, remaining) {
        assert Within(tail, i + 1, |values|);
      }
      if rest[0] == i && Selection(values, i + 1, tail, remaining - values[i]) {
        SumIsPositive(values, tail);
        forall a, b | 0 <= a < b < |rest| ensures rest[a] < rest[b] {
          assert rest[b] == tail[b - 1];
          if a > 0 { assert rest[a] == tail[a - 1]; }
        }
        forall k | 0 <= k < |rest| ensures i <= rest[k] < |values| {
          if k > 0 { assert rest[k] == tail[k - 1]; }
        }
      }
    }
  }

  lemma NoneBeyond(values: seq<int>, rest: seq<int>, remaining: int)
    requires remaining > 0
    ensures !Selection(values, |values|, rest, remaining)
  {
    if rest != [] {
      assert !(|values| <= rest[0] < |values|);
    }
  }

  lemma PrefixOfLonger(a: seq<int>, i: int, x: seq<int>)
    ensures a + [i] <= x ==> a <= x
  {
    if a + [i] <= x {
      assert x[..|a|] == (a + [i])[..|a|] == a;
    }
  }

  lemma CompletesSplit(values: seq<int>, current: seq<int>, i: nat, remaining: int, x: seq<int>)
    requires Positive(values) && i < |values| && remaining > 0
    ensures Completes(values, current, i, remaining, x) <==>
            Completes(values, current, i + 1, remaining, x) || Completes(values, current + [i], i + 1, remaining - values[i], x)
    ensures Completes(values, current + [i], i + 1, remaining - values[i], x) ==>
              !Completes(values, current, i + 1, remaining, x) && values[i] <= remaining
  {
    if current <= x {
      var rest := x[|current|..];
      SelectionSplit(values, i, rest, remaining);
      if rest != [] {
        assert x[..|current|] == current;
        assert rest[0] == i ==> x[..|current| + 1] == current + [i];
        assert rest[1..] == x[|current| + 1..];
        assert current + [i] <= x <==> rest[0] == i;
      }
    }
    PrefixOfLonger(current, i, x);
  }

  lemma {:induction false} DfsFromExact(values: seq<int>, current: seq<int>, i: nat, remaining: int, x: seq<int>)
    requires Positive(values) && i <= |values| && remaining > 0
    ensures multiset(DfsFrom(values, current, i, remaining))[x] == if Completes(values, current, i, remaining, x) then 1 else 0
    decreases |values| - i, 0
  {
    if i == |values| {
      if current <= x { NoneBeyond(values, x[|current|..], remaining); }
    } else {
      var with := if values[i] > remaining then [] else Dfs(values, current + [i], i + 1, remaining - values[i]);
      var without := DfsFrom(values, current, i + 1, remaining);
      DfsFromExact(values, current, i + 1, remaining, x);
      if values[i] <= remaining { DfsExact(values, current + [i], i + 1, remaining - values[i], x); }
      CompletesSplit(values, current, i, remaining, x);
      assert multiset(with + without)[x] == multiset(with)[x] + multiset(without)[x];
    }
  }

  /** The search finds every completion exactly once, and nothing else. */
  lemma {:induction false} DfsExact(values: seq<int>, current: seq<int>, start: nat, remaining: int, x: seq<int>)
    requires Positive(values) && start <= |values| && (current != [] || remaining > 0)
    ensures multiset(Dfs(values, current, start, remaining))[x] == if Completes(values, current, start, remaining, x) then 1 else 0
    decreases |values| - start, 1
  {
    if remaining <= 0 {
      if current <= x && Selection(values, start, x[|current|..], remaining) {
        SumIsPositive(values, x[|current|..]);
        assert x == current;
      }
      if x == current { assert x[|current|..] == []; }
    } else {
      DfsFromExact(values, current, start, remaining, x);
    }
  }

  lemma Counted<T>(list: seq<T>, last: T, x: T)
    ensures multiset(list + [last])[x] == multiset(list)[x] + if x == last then 1 else 0
  {
    assert multiset(list + [last]) == multiset(list) + multiset{last};
  }

  lemma SinglesNext(values: seq<int>, target: int, n: nat, x: seq<int>)
    requires 0 < n <= |values|
    ensures multiset(Singles(values, target, n))[x] ==
            multiset(Singles(values, target, n - 1))[x] + if values[n - 1] == target && x == [n - 1] then 1 else 0
  {
    var before := Singles(values, target, n - 1);
    Counted(before, [n - 1], x);
    assert before + [] == before;
  }

  /** One index that takes a card of the target value. */
  predicate TakesOne(values: seq<int>, target: int, n: nat, x: seq<int>)
    requires n <= |values|
  {
    |x| == 1 && 0 <= x[0] < n && values[x[0]] == target
  }

  lemma TakesOneNext(values: seq<int>, target: int, n: nat, x: seq<int>)
    requires 0 < n <= |values|
    ensures TakesOne(values, target, n, x) <==> TakesOne(values, target, n - 1, x) || (values[n - 1] == target && x == [n - 1])
    ensures !(TakesOne(values, target, n - 1, x) && x == [n - 1])
  {
  }

  lemma {:induction false} SinglesExact(values: seq<int>, target: int, n: nat, x: seq<int>)
    requires n <= |values|
    ensures multiset(Singles(values, target, n))[x] == if TakesOne(values, target, n, x) then 1 else 0
  {
    if n > 0 {
      SinglesExact(values, target, n - 1, x);
      SinglesNext(values, target, n, x);
      TakesOneNext(values, target, n, x);
    }
  }

  /** For any table and any played card the options are exactly the allowed ones, each exactly once. */
  lemma OptionsExact(played: int, table: seq<int>, x: seq<int>)
    requires ValueOf(played) > 0 && forall i :: 0 <= i < |table| ==> ValueOf(table[i]) > 0
    ensures multiset(CaptureOptions(played, table))[x] == if Allowed(Values(table), ValueOf(played), x) then 1 else 0
  {
    var values, target := Values(table), ValueOf(played);
    if HasEqual(values, target) {
      SinglesExact(values, target, |values|, x);
    } else {
      SortKeeps(table, Dfs(values, [], 0, target));
      DfsExact(values, [], 0, target, x);
      assert x[0..] == x;
    }
  }

  lemma OptionIsAllowed(played: int, table: seq<int>, k: nat)
    requires ValueOf(played) > 0 && forall i :: 0 <= i < |table| ==> ValueOf(table[i]) > 0
    requires k < |CaptureOptions(played, table)|
    ensures Allowed(Values(table), ValueOf(played), CaptureOptions(played, table)[k])
  {
    OptionsExact(played, table, CaptureOptions(played, table)[k]);
    assert CaptureOptions(played, table)[k] in multiset(CaptureOptions(played, table));
  }

  /** A card that may take nothing has a value no table card has. */
  lemma NothingToTake(played: int, table: seq<int>)
    requires ValueOf(played) > 0 && forall i :: 0 <= i < |table| ==> ValueOf(table[i]) > 0
    requires CaptureOptions(played, table) == []
    ensures forall i :: 0 <= i < |table| ==> ValueOf(table[i]) != ValueOf(played)
  {
    forall i | 0 <= i < |table| ensures ValueOf(table[i]) != ValueOf(played) {
      OptionsExact(played, table, [i]);
      assert Values(table)[i] in Values(table);
    }
  }

  // ----- the program's loops -----

  /** The depth-first search with one shared list, pushed and popped around each recursive call. */
  class CaptureSearch {
    var current: seq<int>
    var found: seq<seq<int>>

    constructor ()
      ensures current == [] && found == []
    {
      current, found := [], [];
    }

    method Search(values: seq<int>, start: nat, remaining: int)
      requires start <= |values|
      modifies this
      ensures current == old(current)
      ensures found == old(found) + Dfs(values, old(current), start, remaining)
      decreases |values| - start
    {
      if remaining == 0 && current != [] {
        found := found + [current];
        return;
      }
      if remaining <= 0 {
        return;
      }
      for i := start to |values|
        invariant current == old(current)
        invariant found + DfsFrom(values, current, i, remaining) == old(found) + DfsFrom(values, current, start, remaining)
      {
        if values[i] > remaining {
          continue;
        }
        ghost var before := found;
        current := current + [i];
        Search(values, i + 1, remaining - values[i]);
        current := current[..|current| - 1];
        assert before + (Dfs(values, current + [i], i + 1, remaining - values[i]) + DfsFrom(values, current, i + 1, remaining))
               == found + DfsFrom(values, current, i + 1, remaining);
      }
    }
  }

  method GetCaptureOptions(played: int, table: seq<int>) returns (options: seq<seq<int>>)
    ensures options == CaptureOptions(played, table)
  {
    var values := Values(table);
    options := [];
    for i := 0 to |table|
      invariant options == Singles(values, ValueOf(played), i)
      invariant options == [] <==> ValueOf(played) !in values[..i]
    {
      assert values[..i + 1] == values[..i] + [values[i]];
      if ValueOf(table[i]) == ValueOf(played) {
        options := options + [[i]];
      }
    }
    assert values[..|values|] == values;
    if options != [] {
      return;
    }
    var search := new CaptureSearch();
    search.Search(values, 0, ValueOf(played));
    assert search.found == Dfs(values, [], 0, ValueOf(played));
    options := SortOptions(table, search.found);
  }
}
