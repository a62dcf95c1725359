/**
 * Ordered registries of callbacks as the source keeps them in arrays:
 * `push` appends, and removal is `indexOf` followed by `splice(index, 1)`,
 * which drops the first occurrence only and leaves the array alone when
 * the element is absent.
 */
module Registry {

  /** `Array.prototype.indexOf`: the first index holding `x`, or -1. */
  function IndexOf<T(==)>(s: seq<T>, x: T): (r: int)
    ensures -1 <= r < |s|
    ensures r == -1 <==> x !in s
    ensures 0 <= r ==> s[r] == x && x !in s[..r]
  {
    if s == [] then -1
    else if s[0] == x then 0
    else
      var r := IndexOf(s[1..], x);
      assert s[1..][..if r < 0 then 0 else r] == s[1..if r < 0 then 1 else r + 1];
      if r == -1 then -1 else r + 1
  }

  /** `indexOf` then `splice(index, 1)` when the index is not -1. */
  function RemoveFirst<T(==)>(s: seq<T>, x: T): (r: seq<T>)
    ensures x !in s ==> r == s
    ensures x in s ==> |r| == |s| - 1
  {
    var i := IndexOf(s, x);
    if i == -1 then s else s[..i] + s[i + 1..]
  }

  /** Removal takes away exactly one occurrence of `x` and nothing else. */
  lemma RemoveFirstMultiset<T>(s: seq<T>, x: T)
    ensures multiset(RemoveFirst(s, x)) ==
            if x in s then multiset(s) - multiset{x} else multiset(s)
  {
    var i := IndexOf(s, x);
    if i != -1 {
      assert s == s[..i] + [x] + s[i + 1..];
      calc {
        multiset(s);
        multiset(s[..i]) + multiset{x} + multiset(s[i + 1..]);
        multiset(RemoveFirst(s, x)) + multiset{x};
      }
    }
  }

  /**
   * Removal keeps the order of the survivors: the elements before the
   * first `x` stay where they were and every later one moves up by one.
   */
  lemma RemoveFirstShifts<T>(s: seq<T>, x: T, k: nat)
    requires x in s && k < |s| - 1
    ensures RemoveFirst(s, x)[k] == if k < IndexOf(s, x) then s[k] else s[k + 1]
  {
  }

  /** Removing a listener that was just appended undoes the append, when it was absent before. */
  lemma {:induction false} RemoveAfterAppend<T>(s: seq<T>, x: T)
    requires x !in s
    ensures RemoveFirst(s + [x], x) == s
  {
    var i := IndexOf(s + [x], x);
    assert (s + [x])[..|s|] == s;
  }
}
