/** The places where a flag is up, in order. */
module Picks {

  function Picked(flags: seq<bool>): (places: seq<nat>)
    ensures |places| <= |flags|
  {
    if flags == [] then []
    else Picked(flags[..|flags| - 1]) + if flags[|flags| - 1] then [|flags| - 1] else []
  }

  lemma PickedNext(flags: seq<bool>, flag: bool)
    ensures Picked(flags + [flag]) == Picked(flags) + if flag then [|flags|] else []
  {
    assert (flags + [flag])[..|flags|] == flags;
  }

  /** They are places whose flag is up, each once and in order. */
  lemma {:induction false} PickedAre(flags: seq<bool>)
    ensures forall a, b :: 0 <= a < b < |Picked(flags)| ==> Picked(flags)[a] < Picked(flags)[b]
    ensures forall a :: 0 <= a < |Picked(flags)| ==> Picked(flags)[a] < |flags| && flags[Picked(flags)[a]]
  {
    if flags != [] {
      PickedAre(flags[..|flags| - 1]);
    }
  }

  /** How many of the first n places are picked. */
  function Rank(flags: seq<bool>, n: nat): nat
    requires n <= |flags|
    decreases n
  {
    if n == 0 then 0 else Rank(flags, n - 1) + if flags[n - 1] then 1 else 0
  }

  lemma {:induction false} RankOfPart(flags: seq<bool>, n: nat, m: nat)
    requires n <= m <= |flags|
    ensures Rank(flags[..m], n) == Rank(flags, n)
    decreases n
  {
    if n > 0 {
      RankOfPart(flags, n - 1, m);
    }
  }

  /** Every place whose flag is up is picked, and its rank is where it is in the list. */
  lemma {:induction false} RankIs(flags: seq<bool>, n: nat)
    requires n < |flags|
    ensures Rank(flags, n) <= |Picked(flags)| && Rank(flags, |flags|) == |Picked(flags)|
    ensures flags[n] ==> Rank(flags, n) < |Picked(flags)| && Picked(flags)[Rank(flags, n)] == n
    decreases |flags|, 0
  {
    var last := |flags| - 1;
    var front := flags[..last];
    RankOfPart(flags, n, last);
    RankOfPart(flags, last, last);
    if n < last {
      RankIs(front, n);
    } else {
      RankEnds(front);
    }
  }

  lemma {:induction false} RankEnds(flags: seq<bool>)
    ensures Rank(flags, 0) == 0 && Rank(flags, |flags|) == |Picked(flags)|
    decreases |flags|, 1
  {
    if flags != [] {
      RankIs(flags, 0);
    }
  }
}
