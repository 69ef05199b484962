/** Subsequences by the places they are taken from. */
module Sequences {
  /** The places are in ascending order, and hold what was picked. */
  predicate Picks<T(==)>(picked: seq<T>, source: seq<T>, at: seq<nat>) {
    && |at| == |picked|
    && (forall k | 0 <= k < |at| :: at[k] < |source| && picked[k] == source[at[k]])
    && (forall j, k | 0 <= j < k < |at| :: at[j] < at[k])
  }

  /** One more element in front, picked or not. */
  lemma ConsPicks<T>(x: T, picked: seq<T>, rest: seq<T>, at: seq<nat>, take: bool) returns (all: seq<nat>)
    requires Picks(picked, rest, at)
    ensures Picks((if take then [x] else []) + picked, [x] + rest, all)
    ensures forall i: nat :: i in all <==> if i == 0 then take else i - 1 in at
  {
    var shifted := seq(|at|, k requires 0 <= k < |at| => at[k] + 1);
    all := (if take then [0] else []) + shifted;
    forall i: nat | i > 0
      ensures i in shifted <==> i - 1 in at
    {
      if i - 1 in at {
        var k :| 0 <= k < |at| && at[k] == i - 1;
        assert shifted[k] == i;
      }
    }
  }

  /** One more element behind. */
  lemma SnocPicks<T>(x: T, picked: seq<T>, front: seq<T>, at: seq<nat>, take: bool) returns (all: seq<nat>)
    requires Picks(picked, front, at)
    ensures Picks(picked + (if take then [x] else []), front + [x], all)
    ensures forall i: nat :: i in all <==> i in at || (take && i == |front|)
  {
    all := at + if take then [|front|] else [];
  }
}
