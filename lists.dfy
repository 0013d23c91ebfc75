/** The list updates the handlers perform on `usersList` and `blockedUsers` (lists of chat ids). */
module Lists {

  predicate NoDup(s: seq<int>)
  {
    forall j, k :: 0 <= j < k < |s| ==> s[j] != s[k]
  }

  /** `if (!list.includes(x)) list.push(x)`: `x` is present afterwards, the old list is a prefix of
      the new one, nothing else is added, and a duplicate-free list stays duplicate-free. */
  function AddIfAbsent(s: seq<int>, x: int): (r: seq<int>)
    ensures s <= r && x in r
    ensures x in s ==> r == s
    ensures x !in s ==> |r| == |s| + 1
    ensures forall y :: y in r <==> y in s || y == x
    ensures NoDup(s) ==> NoDup(r)
  {
    if x in s then s else s + [x]
  }

  /** `list.filter(id => id !== x)`: every occurrence of `x` is gone, every other element is still
      there, and a duplicate-free list stays duplicate-free. */
  function Without(s: seq<int>, x: int): (r: seq<int>)
    ensures x !in r
    ensures forall y :: y != x ==> (y in r <==> y in s)
    ensures NoDup(s) ==> NoDup(r)
  {
    if s == [] then []
    else
      var rest := Without(s[1..], x);
      assert s == [s[0]] + s[1..];
      if s[0] == x then rest
      else
        assert NoDup(s) ==> s[0] !in s[1..];
        [s[0]] + rest
  }

  /** Filtering removes exactly the occurrences of `x`: every other element keeps its number of
      occurrences. */
  lemma {:induction false} WithoutCounts(s: seq<int>, x: int)
    ensures multiset(Without(s, x)) == multiset(s)[x := 0]
  {
    if s != [] {
      WithoutCounts(s[1..], x);
      assert s == [s[0]] + s[1..];
    }
  }

  /** Filtering a list that lacks `x` changes nothing. */
  lemma {:induction false} WithoutAbsent(s: seq<int>, x: int)
    requires x !in s
    ensures Without(s, x) == s
  {
    if s != [] {
      WithoutAbsent(s[1..], x);
    }
  }

  /** Filtering distributes over concatenation. */
  lemma {:induction false} WithoutConcat(s: seq<int>, t: seq<int>, x: int)
    ensures Without(s + t, x) == Without(s, x) + Without(t, x)
  {
    if s != [] {
      assert (s + t)[1..] == s[1..] + t;
      WithoutConcat(s[1..], t, x);
    } else {
      assert s + t == t;
    }
  }

  /** Unblocking undoes blocking: blocking an id that was not listed and then unblocking it gives
      back the list as it was. */
  lemma UnblockUndoesBlock(s: seq<int>, x: int)
    requires x !in s
    ensures Without(AddIfAbsent(s, x), x) == s
  {
    WithoutConcat(s, [x], x);
    WithoutAbsent(s, x);
    assert Without([x], x) == [];
  }
}
