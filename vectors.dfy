/** `Vec` operations used by the window manager, modelled on sequences. */
module Vectors {

  /**
   * `Vec::swap_remove(i)`: the element at `i` is removed and the last element
   * takes its place, so the order of the others is not preserved.
   */
  function SwapRemove<T>(s: seq<T>, i: nat): (r: seq<T>)
    requires i < |s|
    ensures |r| == |s| - 1
    ensures forall k :: 0 <= k < |r| ==> r[k] == (if k == i then s[|s| - 1] else s[k])
  {
    s[i := s[|s| - 1]][..|s| - 1]
  }

  /** Removing with `swap_remove` takes exactly one copy of `s[i]` out of the contents. */
  lemma SwapRemoveMultiset<T>(s: seq<T>, i: nat)
    requires i < |s|
    ensures multiset(SwapRemove(s, i)) + multiset{s[i]} == multiset(s)
  {
    var last := |s| - 1;
    var r := SwapRemove(s, i);
    if i == last {
      assert r == s[..last];
      assert s == s[..last] + [s[last]];
    } else {
      assert r == s[..i] + [s[last]] + s[i + 1..last];
      assert s == s[..i] + [s[i]] + s[i + 1..last] + [s[last]];
    }
  }

  /**
   * The prefix before `i` is untouched, and what now lies from `i` on is a
   * permutation of what lay after `i`: the element at `i` is the only one lost.
   */
  lemma SwapRemoveSplit<T>(s: seq<T>, i: nat)
    requires i < |s|
    ensures SwapRemove(s, i)[..i] == s[..i]
    ensures multiset(SwapRemove(s, i)[i..]) == multiset(s[i + 1..])
  {
    var r := SwapRemove(s, i);
    var last := |s| - 1;
    assert r[..i] == s[..i];
    if i < last {
      assert r[i..] == [s[last]] + s[i + 1..last];
      assert s[i + 1..] == s[i + 1..last] + [s[last]];
    }
  }

  /** Writing `x` into slot `i` trades one copy of `s[i]` for one copy of `x`. */
  lemma UpdateMultiset<T>(s: seq<T>, i: nat, x: T)
    requires i < |s|
    ensures multiset(s[i := x]) + multiset{s[i]} == multiset(s) + multiset{x}
  {
    assert s == s[..i] + [s[i]] + s[i + 1..];
    assert s[i := x] == s[..i] + [x] + s[i + 1..];
  }

  /**
   * Moving `s[i]` out to a separate place and `x` into slot `i` keeps the
   * contents of both together; removing slot `i` afterwards drops `x` again.
   */
  lemma ExchangeMultiset<T>(s: seq<T>, i: nat, x: T)
    requires i < |s|
    ensures multiset([s[i]] + s[i := x]) == multiset([x] + s)
    ensures multiset([s[i]] + SwapRemove(s[i := x], i)) == multiset(s)
  {
    var t := s[i := x];
    UpdateMultiset(s, i, x);
    SwapRemoveMultiset(t, i);
    assert t[i] == x;
    assert multiset([s[i]] + t) == multiset{s[i]} + multiset(t);
    assert multiset([x] + s) == multiset{x} + multiset(s);
    assert multiset([s[i]] + SwapRemove(t, i)) == multiset{s[i]} + multiset(SwapRemove(t, i));
    var a, b := multiset(SwapRemove(t, i)) + multiset{s[i]}, multiset(s);
    assert a + multiset{x} == b + multiset{x};
    assert forall y :: a[y] == (a + multiset{x})[y] - multiset{x}[y] && b[y] == (b + multiset{x})[y] - multiset{x}[y];
  }

  /** Dropping one element from the part after a fixed head leaves no more than before. */
  lemma DropSub<T>(m: T, s: seq<T>, t: seq<T>, x: T)
    requires multiset(t) + multiset{x} == multiset(s)
    ensures multiset([m] + t) <= multiset([m] + s)
  {
    assert multiset([m] + t) == multiset{m} + multiset(t);
    assert multiset([m] + s) == multiset{m} + multiset(s);
  }

  /** A sequence with the contents of `s` holds no more than `s` with a head added. */
  lemma TailSub<T>(u: seq<T>, m: T, s: seq<T>)
    requires multiset(u) == multiset(s)
    ensures multiset(u) <= multiset([m] + s)
  {
    assert multiset([m] + s) == multiset{m} + multiset(s);
  }

  /** Writing slot `i` leaves the slots before and after it as they were. */
  lemma UpdateSplit<T>(s: seq<T>, i: nat, x: T)
    requires i < |s|
    ensures s[i := x][..i] == s[..i]
    ensures s[i := x][..i + 1] == s[..i] + [x]
    ensures s[i := x][i + 1..] == s[i + 1..]
  {
  }
}
