/** What several modules share. */
module Common {

  datatype Option<+T> = None | Some(value: T)

  /** The bits of a 32-bit float, which are only passed on. */
  type Word32 = x: nat | x < 0x1_0000_0000

  predicate IsDigit(c: char) { '0' <= c <= '9' }

  lemma Associative<T>(a: seq<T>, b: seq<T>, c: seq<T>)
    ensures a + b + c == a + (b + c)
  {
  }

  /** How many elements satisfy p. */
  function Count<T>(s: seq<T>, p: T -> bool): nat {
    if s == [] then 0 else Count(s[..|s| - 1], p) + if p(s[|s| - 1]) then 1 else 0
  }

  lemma {:induction false} CountAfterUpdate<T>(s: seq<T>, p: T -> bool, i: nat, x: T)
    requires i < |s|
    ensures Count(s[i := x], p) == Count(s, p) - (if p(s[i]) then 1 else 0) + if p(x) then 1 else 0
  {
    var last := |s| - 1;
    if i == last {
      assert s[i := x][..last] == s[..last];
    } else {
      CountAfterUpdate(s[..last], p, i, x);
      assert s[i := x][..last] == s[..last][i := x];
    }
  }

  lemma CountAfterAppend<T>(s: seq<T>, p: T -> bool, x: T)
    ensures Count(s + [x], p) == Count(s, p) + if p(x) then 1 else 0
  {
    assert (s + [x])[..|s|] == s;
  }

  /** A part of a part is a part of the whole. */
  lemma SliceOfSlice<T>(s: seq<T>, lo: nat, hi: nat, i: nat, n: nat)
    requires lo <= hi <= |s| && lo + i + n <= hi
    ensures s[lo..hi][i..i + n] == s[lo + i..lo + i + n]
  {
    var inner := s[lo..hi][i..i + n];
    var outer := s[lo + i..lo + i + n];
    forall k | 0 <= k < n
      ensures inner[k] == outer[k]
    {
      assert inner[k] == s[lo..hi][i + k];
    }
  }

  /** A sequence that may grow by one element. */
  lemma Grown<T>(s: seq<T>, x: T, more: bool)
    ensures multiset(s + if more then [x] else []) == multiset(s) + if more then multiset{x} else multiset{}
  {
    assert s + [] == s;
  }
}
