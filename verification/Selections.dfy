/** What it means to filter a sequence, said of positions. */
module Selections {
  /** The positions at which `part` was taken from xs: all those that satisfy p, in order. */
  ghost predicate Picks<T>(part: seq<T>, xs: seq<T>, p: T -> bool, at: seq<nat>) {
    && |at| == |part| && (forall j, k :: 0 <= j < k < |at| ==> at[j] < at[k])
    && (forall j :: 0 <= j < |at| ==> at[j] < |xs| && part[j] == xs[at[j]])
    && (forall i :: 0 <= i < |xs| ==> (p(xs[i]) <==> i in at))
  }

  /** `part` holds the elements of xs that satisfy p, in the order of xs. */
  ghost predicate Selects<T>(part: seq<T>, xs: seq<T>, p: T -> bool) {
    exists at: seq<nat> :: Picks(part, xs, p, at)
  }

  lemma SelectsNone<T>(p: T -> bool)
    ensures Selects([], [], p)
  {
    var none: seq<T>, at: seq<nat> := [], [];
    assert Picks(none, none, p, at);
  }

  lemma PicksOne<T>(part: seq<T>, xs: seq<T>, p: T -> bool, at: seq<nat>, x: T)
    requires Picks(part, xs, p, at) && p(x)
    ensures Picks(part + [x], xs + [x], p, at + [|xs|])
  {
    var n, at' := |at|, at + [|xs|];
    assert at'[n] == |xs|;
    forall i | 0 <= i <= |xs| ensures p((xs + [x])[i]) <==> i in at' {
      assert i < |xs| ==> (p(xs[i]) <==> i in at);
    }
    forall j | 0 <= j < |at'| ensures at'[j] <= |xs| && (part + [x])[j] == (xs + [x])[at'[j]] {
      if j < n { assert at'[j] == at[j] && at[j] < |xs|; }
    }
  }

  lemma SelectsMore<T>(part: seq<T>, xs: seq<T>, p: T -> bool, x: T)
    requires Selects(part, xs, p)
    ensures Selects(if p(x) then part + [x] else part, xs + [x], p)
  {
    var at: seq<nat> :| Picks(part, xs, p, at);
    if p(x) {
      hide Picks;
      PicksOne(part, xs, p, at, x);
    } else {
      assert forall j :: 0 <= j < |at| ==> at[j] in at;
      assert Picks(part, xs + [x], p, at);
    }
  }

  lemma SelectsMembers<T>(part: seq<T>, xs: seq<T>, p: T -> bool, x: T)
    requires Selects(part, xs, p)
    ensures x in part <==> x in xs && p(x)
  {
    var at: seq<nat> :| Picks(part, xs, p, at);
    if x in part {
      var j :| 0 <= j < |part| && part[j] == x;
      assert at[j] in at;
    }
    if x in xs && p(x) {
      var i :| 0 <= i < |xs| && xs[i] == x;
      var j :| 0 <= j < |at| && at[j] == i;
      assert part[j] == x;
    }
  }
}
