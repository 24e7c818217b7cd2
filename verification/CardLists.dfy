/** Lists of cards as the games edit them: erase one card, erase by index, take from the back. */
module CardLists {

  /** `cards` without the first occurrence of `target`. */
  function Without(cards: seq<int>, target: int): (rest: seq<int>)
    ensures |rest| == if target in cards then |cards| - 1 else |cards|
  {
    if cards == [] then []
    else if cards[0] == target then cards[1..]
    else [cards[0]] + Without(cards[1..], target)
  }

  /** Erasing a held card takes away exactly one copy of it; erasing another changes nothing. */
  lemma {:induction false} WithoutMultiset(cards: seq<int>, target: int)
    ensures multiset(Without(cards, target)) == multiset(cards) - multiset{target}
    ensures target !in cards ==> Without(cards, target) == cards
  {
    if cards != [] {
      assert cards == [cards[0]] + cards[1..];
      WithoutMultiset(cards[1..], target);
    }
  }

  lemma {:induction false} WithoutAppend(cards: seq<int>, card: int, target: int)
    ensures Without(cards + [card], target) ==
            if target in cards then Without(cards, target) + [card]
            else if card == target then cards
            else cards + [card]
  {
    if cards != [] {
      assert (cards + [card])[1..] == cards[1..] + [card];
      WithoutAppend(cards[1..], card, target);
    }
  }

  /** One iteration of the erasing loop: keep `card` unless it is the first copy of `target`. */
  method EraseStep(result: seq<int>, removed: bool, ghost seen: seq<int>, card: int, target: int)
    returns (result': seq<int>, removed': bool)
    requires result == Without(seen, target) && (removed <==> target in seen)
    ensures result' == Without(seen + [card], target) && (removed' <==> target in seen + [card])
  {
    WithoutAppend(seen, card, target);
    WithoutMultiset(seen, target);
    if !removed && card == target {
      return result, true;
    }
    return result + [card], removed;
  }

  method RemoveOneCard(cards: seq<int>, target: int) returns (result: seq<int>)
    ensures result == Without(cards, target)
  {
    result := [];
    var removed := false;
    ghost var seen: seq<int> := [];
    for i := 0 to |cards|
      invariant seen == cards[..i]
      invariant result == Without(seen, target)
      invariant removed <==> target in seen
    {
      result, removed := EraseStep(result, removed, seen, cards[i], target);
      seen := seen + [cards[i]];
    }
    assert seen == cards;
  }
}
