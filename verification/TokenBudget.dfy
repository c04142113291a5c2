/** The priority-tiered token budget of code-version/core/models.py. */
module TokenBudget {

  datatype Tier = Tier(name: string, priority: int, min: int, max: int, degradable: bool, expandable: bool)

  function Min(x: int, y: int): int {
    if x <= y then x else y
  }

  function Max(x: int, y: int): int {
    if x >= y then x else y
  }

  // ----- Order -----

  function Insert(ts: seq<Tier>, t: Tier): seq<Tier> {
    if ts == [] || ts[|ts| - 1].priority <= t.priority then ts + [t]
    else Insert(ts[..|ts| - 1], t) + [ts[|ts| - 1]]
  }

  /** sorted(key = priority), which keeps the order of equals. */
  function ByPriority(ts: seq<Tier>): seq<Tier> {
    if ts == [] then [] else Insert(ByPriority(ts[..|ts| - 1]), ts[|ts| - 1])
  }

  predicate Ascending(ts: seq<Tier>) {
    forall i, j :: 0 <= i < j < |ts| ==> ts[i].priority <= ts[j].priority
  }

  lemma {:induction false} InsertKeeps(ts: seq<Tier>, t: Tier)
    requires Ascending(ts)
    ensures Ascending(Insert(ts, t))
    ensures forall i :: 0 <= i < |Insert(ts, t)| ==> Insert(ts, t)[i] == t || Insert(ts, t)[i] in ts
  {
    if ts != [] && ts[|ts| - 1].priority > t.priority {
      InsertKeeps(ts[..|ts| - 1], t);
    }
  }

  lemma {:induction false} InsertPermutes(ts: seq<Tier>, t: Tier)
    ensures multiset(Insert(ts, t)) == multiset(ts) + multiset{t}
  {
    if ts != [] && ts[|ts| - 1].priority > t.priority {
      InsertPermutes(ts[..|ts| - 1], t);
      assert ts == ts[..|ts| - 1] + [ts[|ts| - 1]];
    }
  }

  lemma {:induction false} ByPrioritySorts(ts: seq<Tier>)
    ensures Ascending(ByPriority(ts)) && multiset(ByPriority(ts)) == multiset(ts)
  {
    if ts != [] {
      ByPrioritySorts(ts[..|ts| - 1]);
      InsertKeeps(ByPriority(ts[..|ts| - 1]), ts[|ts| - 1]);
      InsertPermutes(ByPriority(ts[..|ts| - 1]), ts[|ts| - 1]);
      assert ts == ts[..|ts| - 1] + [ts[|ts| - 1]];
    }
  }

  /** The tiers of one priority, in order. */
  function OfPriority(ts: seq<Tier>, x: int): seq<Tier> {
    if ts == [] then [] else
    OfPriority(ts[..|ts| - 1], x) + if ts[|ts| - 1].priority == x then [ts[|ts| - 1]] else []
  }

  lemma OfPriorityMore(ts: seq<Tier>, t: Tier, x: int)
    ensures OfPriority(ts + [t], x) == OfPriority(ts, x) + if t.priority == x then [t] else []
  {
    assert (ts + [t])[..|ts|] == ts;
  }

  lemma {:induction false} InsertIsStable(ts: seq<Tier>, t: Tier, x: int)
    requires Ascending(ts)
    ensures OfPriority(Insert(ts, t), x) == OfPriority(ts, x) + if t.priority == x then [t] else []
  {
    hide OfPriority;
    if ts == [] || ts[|ts| - 1].priority <= t.priority {
      OfPriorityMore(ts, t, x);
    } else {
      var init, last := ts[..|ts| - 1], ts[|ts| - 1];
      InsertIsStable(init, t, x);
      OfPriorityMore(Insert(init, t), last, x);
      assert ts == init + [last];
      OfPriorityMore(init, last, x);
    }
  }

  /** Tiers of equal priority keep their order. */
  lemma {:induction false} ByPriorityIsStable(ts: seq<Tier>, x: int)
    ensures OfPriority(ByPriority(ts), x) == OfPriority(ts, x)
  {
    if ts != [] {
      var init, last := ts[..|ts| - 1], ts[|ts| - 1];
      ByPriorityIsStable(init, x);
      ByPrioritySorts(init);
      InsertIsStable(ByPriority(init), last, x);
    }
  }

  // ----- Serving claims in order -----

  function Sum(xs: seq<int>): int {
    if xs == [] then 0 else Sum(xs[..|xs| - 1]) + xs[|xs| - 1]
  }

  /** Each claim in turn gets what it wants or what is left. */
  function Serve(claims: seq<int>, budget: int): (shares: seq<int>)
    ensures |shares| == |claims|
  {
    if claims == [] then [] else
    var before := Serve(claims[..|claims| - 1], budget);
    before + [Min(claims[|claims| - 1], budget - Sum(before))]
  }

  ghost predicate NonNegative(xs: seq<int>) {
    forall i :: 0 <= i < |xs| ==> xs[i] >= 0
  }

  lemma SumMore(xs: seq<int>, x: int)
    ensures Sum(xs + [x]) == Sum(xs) + x
  {
    assert (xs + [x])[..|xs|] == xs;
  }

  ghost predicate Greedy(claims: seq<int>, budget: int, shares: seq<int>) {
    && |shares| == |claims| && NonNegative(shares) && Sum(shares) == Min(Sum(claims), budget)
    && (forall i :: 0 <= i < |claims| ==> shares[i] <= claims[i])
    && (forall i, j :: 0 <= i < j < |claims| && shares[j] > 0 ==> shares[i] == claims[i])
    && (budget >= Sum(claims) ==> shares == claims)
  }

  lemma GreedyStep(claims: seq<int>, c: int, budget: int, shares: seq<int>)
    requires Greedy(claims, budget, shares) && c >= 0 && NonNegative(claims)
    ensures Greedy(claims + [c], budget, shares + [Min(c, budget - Sum(shares))])
  {
    hide Sum;
    SumMore(shares, Min(c, budget - Sum(shares)));
    SumMore(claims, c);
    if Sum(shares) == Sum(claims) { AllServed(shares, claims); }
  }

  /** The shares use up the budget or satisfy every claim; nothing is served to a
      claim while an earlier one is not satisfied. */
  lemma ServeIsGreedy(claims: seq<int>, budget: int)
    requires NonNegative(claims) && budget >= 0
    ensures var shares := Serve(claims, budget);
      && NonNegative(shares) && Sum(shares) == Min(Sum(claims), budget)
      && (forall i :: 0 <= i < |claims| ==> shares[i] <= claims[i])
      && (forall i, j :: 0 <= i < j < |claims| && shares[j] > 0 ==> shares[i] == claims[i])
      && (budget >= Sum(claims) ==> shares == claims)
  {
    ServeGreedily(claims, budget);
  }

  lemma {:induction false} ServeGreedily(claims: seq<int>, budget: int)
    requires NonNegative(claims) && budget >= 0
    ensures Greedy(claims, budget, Serve(claims, budget))
  {
    if claims != [] {
      hide Greedy;
      var init, last := claims[..|claims| - 1], claims[|claims| - 1];
      ServeGreedily(init, budget);
      GreedyStep(init, last, budget, Serve(init, budget));
      assert claims == init + [last];
    }
  }

  lemma {:induction false} AllServed(shares: seq<int>, claims: seq<int>)
    requires |shares| == |claims| && (forall i :: 0 <= i < |claims| ==> shares[i] <= claims[i])
    ensures Sum(shares) <= Sum(claims)
    ensures Sum(shares) == Sum(claims) ==> shares == claims
  {
    if claims != [] { AllServed(shares[..|shares| - 1], claims[..|claims| - 1]); }
  }

  /** A larger budget never lowers a share. */
  lemma {:induction false} ServeIsMonotone(claims: seq<int>, b: int, b': int)
    requires NonNegative(claims) && 0 <= b <= b'
    ensures forall i :: 0 <= i < |claims| ==> Serve(claims, b)[i] <= Serve(claims, b')[i]
  {
    if claims != [] {
      var init := claims[..|claims| - 1];
      ServeIsMonotone(init, b, b');
      ServeIsGreedy(init, b);
      ServeIsGreedy(init, b');
    }
  }

  // ----- The three passes -----

  /** What a tier is entitled to before anything else is given away. */
  function Floor(t: Tier): int {
    if t.degradable then 0 else t.min
  }

  /** First claims: the minimum of every tier that must not degrade. */
  function Floors(ts: seq<Tier>): seq<int> {
    seq(|ts|, i requires 0 <= i < |ts| => Floor(ts[i]))
  }

  /** The first pass skips the tiers that may degrade, so a negative total is felt by
      the first tier that must not. */
  function FirstShares(ts: seq<Tier>, total: int): (s: seq<int>)
    ensures |s| == |ts|
  {
    if ts == [] then [] else
    var before, last := FirstShares(ts[..|ts| - 1], total), ts[|ts| - 1];
    before + [if last.degradable then 0 else Min(last.min, total - Sum(before))]
  }

  lemma {:induction false} FirstAt(ts: seq<Tier>, total: int, k: nat)
    requires k < |ts|
    ensures var s := FirstShares(ts, total);
      && s[k] == (if ts[k].degradable then 0 else Min(ts[k].min, total - Sum(s[..k])))
      && Sum(s[..k + 1]) == Sum(s[..k]) + s[k]
  {
    hide Sum;
    var s, before := FirstShares(ts, total), FirstShares(ts[..|ts| - 1], total);
    assert s[..|ts| - 1] == before;
    if k < |ts| - 1 {
      FirstAt(ts[..|ts| - 1], total, k);
      assert s[..k] == before[..k] && s[..k + 1] == before[..k + 1];
    } else {
      assert s[..k + 1] == before + [s[k]];
      SumMore(before, s[k]);
    }
  }

  /** Unless the total is negative the first pass serves the minimums in order. */
  lemma {:induction false} FirstIsServed(ts: seq<Tier>, total: int)
    requires total >= 0
    ensures FirstShares(ts, total) == Serve(Floors(ts), total) && Sum(FirstShares(ts, total)) <= total
  {
    if ts != [] {
      var init := ts[..|ts| - 1];
      FirstIsServed(init, total);
      assert Floors(ts)[..|ts| - 1] == Floors(init);
      SumMore(FirstShares(init, total), FirstShares(ts, total)[|ts| - 1]);
    }
  }

  /** Second claims: what each tier still lacks to its maximum. */
  function Wants(ts: seq<Tier>, first: seq<int>): seq<int>
    requires |first| == |ts|
  {
    seq(|ts|, i requires 0 <= i < |ts| => Max(ts[i].max - first[i], 0))
  }

  function Add(xs: seq<int>, ys: seq<int>): (zs: seq<int>)
    requires |xs| == |ys|
    ensures |zs| == |xs|
  {
    seq(|xs|, i requires 0 <= i < |xs| => xs[i] + ys[i])
  }

  function SecondShares(ts: seq<Tier>, total: int): (s: seq<int>)
    ensures |s| == |ts|
  {
    var first := FirstShares(ts, total);
    Add(first, Serve(Wants(ts, first), Max(total - Sum(first), 0)))
  }

  function FirstExpandable(ts: seq<Tier>): (i: nat)
    ensures i <= |ts| && (i < |ts| ==> ts[i].expandable) && forall j :: 0 <= j < i ==> !ts[j].expandable
  {
    if ts == [] then 0 else if ts[0].expandable then 0 else 1 + FirstExpandable(ts[1..])
  }

  /** The leftover goes to the first tier that may expand. */
  function Shares(ts: seq<Tier>, total: int): (s: seq<int>)
    ensures |s| == |ts|
  {
    var second, i := SecondShares(ts, total), FirstExpandable(ts);
    if i < |ts| && total > Sum(second) then second[i := second[i] + total - Sum(second)] else second
  }

  // ----- Theorems -----

  /** Bounds are not negative. */
  ghost predicate Sane(ts: seq<Tier>) {
    forall i :: 0 <= i < |ts| ==> 0 <= ts[i].min && 0 <= ts[i].max
  }

  lemma {:induction false} SumAdd(xs: seq<int>, ys: seq<int>)
    requires |xs| == |ys|
    ensures Sum(Add(xs, ys)) == Sum(xs) + Sum(ys)
  {
    if xs != [] {
      SumAdd(xs[..|xs| - 1], ys[..|ys| - 1]);
      assert Add(xs, ys)[..|xs| - 1] == Add(xs[..|xs| - 1], ys[..|ys| - 1]);
    }
  }

  lemma {:induction false} SumUpdate(xs: seq<int>, i: nat, x: int)
    requires i < |xs|
    ensures Sum(xs[i := x]) == Sum(xs) - xs[i] + x
  {
    if i < |xs| - 1 {
      SumUpdate(xs[..|xs| - 1], i, x);
      assert xs[i := x][..|xs| - 1] == xs[..|xs| - 1][i := x];
    } else {
      assert xs[i := x][..|xs| - 1] == xs[..|xs| - 1];
    }
  }

  lemma FirstPass(ts: seq<Tier>, total: int)
    requires Sane(ts) && total >= 0
    ensures var first := FirstShares(ts, total);
      NonNegative(first) && 0 <= Sum(first) <= total && forall i :: 0 <= i < |ts| ==> first[i] <= Floor(ts[i])
  {
    hide Serve, Sum, FirstShares;
    FirstIsServed(ts, total);
    ServeIsGreedy(Floors(ts), total);
    SumNonNegative(FirstShares(ts, total));
  }

  lemma SecondPass(ts: seq<Tier>, total: int)
    requires Sane(ts) && total >= 0
    ensures var first, second := FirstShares(ts, total), SecondShares(ts, total);
      && |first| == |ts| && NonNegative(first) && 0 <= Sum(first) <= Sum(second) <= total
      && (forall i :: 0 <= i < |ts| ==> first[i] <= second[i] <= Max(Floor(ts[i]), ts[i].max))
      && (forall i, j :: 0 <= i < j < |ts| && second[j] > first[j] ==> second[i] >= ts[i].max)
      && (Sum(second) < total ==> forall i :: 0 <= i < |ts| ==> second[i] >= ts[i].max)
  {
    hide Serve, Sum, FirstShares;
    var first := FirstShares(ts, total);
    FirstPass(ts, total);
    var wants, left := Wants(ts, first), total - Sum(first);
    ServeIsGreedy(wants, left);
    var extra := Serve(wants, left);
    SumAdd(first, extra);
    SumNonNegative(first);
    SumNonNegative(extra);
  }

  lemma {:induction false} SumNonNegative(xs: seq<int>)
    requires NonNegative(xs)
    ensures Sum(xs) >= 0
  {
    if xs != [] { SumNonNegative(xs[..|xs| - 1]); }
  }

  /** The allocation never exceeds the total, and uses it up if a tier may expand. */
  lemma AllocationFitsTotal(ts: seq<Tier>, total: int)
    requires Sane(ts) && total >= 0
    ensures var s := Shares(ts, total);
      && NonNegative(s) && Sum(s) <= total
      && ((exists t :: t in ts && t.expandable) ==> Sum(s) == total)
  {
    hide Serve, Sum, SecondShares, FirstShares;
    SecondPass(ts, total);
    var second, i := SecondShares(ts, total), FirstExpandable(ts);
    if i < |ts| {
      SumUpdate(second, i, second[i] + total - Sum(second));
    }
  }

  /** A tier that may not expand stays within its bounds, and no tier gains on top of
      its first share unless all tiers before it are full. */
  lemma AllocationRespectsTiers(ts: seq<Tier>, total: int)
    requires Sane(ts) && total >= 0
    ensures var s, first := Shares(ts, total), FirstShares(ts, total);
      && (forall i :: 0 <= i < |ts| && !IsFirstExpandable(ts, i) ==> s[i] <= Max(Floor(ts[i]), ts[i].max))
      && (forall i, j :: 0 <= i < j < |ts| && s[j] > first[j] ==> s[i] >= ts[i].max)
  {
    hide Serve, Sum, SecondShares, FirstShares;
    SecondPass(ts, total);
    if FirstExpandable(ts) < |ts| { assert IsFirstExpandable(ts, FirstExpandable(ts)); }
  }

  /** Tiers that must not degrade get their minimum first: in order, as far as the
      total goes, whatever the other tiers would like. */
  lemma FloorsComeFirst(ts: seq<Tier>, total: int)
    requires Sane(ts) && total >= 0
    ensures forall i :: 0 <= i < |ts| ==> Shares(ts, total)[i] >= FirstShares(ts, total)[i]
    ensures Sum(Floors(ts)) <= total ==> forall i :: 0 <= i < |ts| && !ts[i].degradable ==>
      Shares(ts, total)[i] >= ts[i].min
  {
    hide Serve, Sum, FirstShares, SecondShares;
    SecondPass(ts, total);
    FirstIsServed(ts, total);
    ServeIsGreedy(Floors(ts), total);
  }

  ghost predicate IsFirstExpandable(ts: seq<Tier>, i: nat)
    requires i < |ts|
  {
    ts[i].expandable && forall j :: 0 <= j < i ==> !ts[j].expandable
  }

  /** Amounts for tiers in their order.  Nothing is negative; the sum is within the total,
      and uses it up if some tier may expand.  If the minimums of the tiers that must not
      degrade do not fit, these are served in order and nobody gets more; if they fit, each
      has its own, and nothing is added to a tier while one before it lacks something to
      its maximum.  Beyond its bounds goes only the first tier that may expand, and only
      when every tier is full. */
  ghost predicate Fair(ts: seq<Tier>, total: int, s: seq<int>) {
    && |s| == |ts| && NonNegative(s) && Sum(s) <= total
    && ((exists t :: t in ts && t.expandable) ==> Sum(s) == total)
    && (Sum(s) < total ==> forall i :: 0 <= i < |ts| ==> s[i] >= ts[i].max)
    && (if Sum(Floors(ts)) > total then
          Sum(s) == total && (forall i :: 0 <= i < |ts| ==> s[i] <= Floor(ts[i])) &&
            forall i, j :: 0 <= i < j < |ts| && s[j] > 0 ==> s[i] == Floor(ts[i])
        else
          (forall i :: 0 <= i < |ts| ==> s[i] >= Floor(ts[i])) &&
            forall i, j :: 0 <= i < j < |ts| && s[j] > Floor(ts[j]) ==> s[i] >= ts[i].max)
    && (forall i :: 0 <= i < |ts| && s[i] > Max(Floor(ts[i]), ts[i].max) ==>
          IsFirstExpandable(ts, i) && forall j :: 0 <= j < |ts| ==> s[j] >= ts[j].max)
  }

  lemma FloorsAre(ts: seq<Tier>, i: nat)
    requires i < |ts|
    ensures Floors(ts)[i] == Floor(ts[i])
  {
  }

  /** The shares are such amounts. */
  lemma SharesAreFair(ts: seq<Tier>, total: int)
    requires Sane(ts) && total >= 0
    ensures Fair(ts, total, Shares(ts, total))
  {
    hide Serve, Sum, FirstShares, SecondShares, Floors;
    var s, floors, first, second := Shares(ts, total), Floors(ts), FirstShares(ts, total), SecondShares(ts, total);
    FloorsNotNegative(ts);
    forall i | 0 <= i < |ts| ensures floors[i] == Floor(ts[i]) { FloorsAre(ts, i); }
    AllocationFitsTotal(ts, total);
    AllocationRespectsTiers(ts, total);
    SecondPass(ts, total);
    FirstIsServed(ts, total);
    ServeIsGreedy(floors, total);
    if Sum(floors) > total {
      SameSum(first, second);
      assert s == second == first;
    }
  }

  lemma FloorsNotNegative(ts: seq<Tier>)
    requires Sane(ts)
    ensures |Floors(ts)| == |ts| && NonNegative(Floors(ts))
  {
  }

  /** Amounts that are nowhere larger and have the same sum are the same. */
  lemma SameSum(xs: seq<int>, ys: seq<int>)
    requires |xs| == |ys| && (forall i :: 0 <= i < |xs| ==> xs[i] <= ys[i]) && Sum(xs) >= Sum(ys)
    ensures xs == ys
  {
    AllServed(xs, ys);
  }

  lemma {:induction false} SumLess(xs: seq<int>, ys: seq<int>, k: nat)
    requires |xs| == |ys| && k < |xs| && xs[k] < ys[k] && forall i :: 0 <= i < |xs| ==> xs[i] <= ys[i]
    ensures Sum(xs) < Sum(ys)
  {
    var n := |xs| - 1;
    if k < n { SumLess(xs[..n], ys[..n], k); } else { AllServed(xs[..n], ys[..n]); }
  }

  lemma BeyondBounds(ts: seq<Tier>, total: int, s: seq<int>, j: nat)
    requires Fair(ts, total, s) && j < |ts|
    ensures s[j] > Max(Floor(ts[j]), ts[j].max) ==> IsFirstExpandable(ts, j)
  {
    hide Sum, Floors;
  }

  /** The first tier that got less in one than in the other would contradict one of them. */
  lemma NoneGetsLess(ts: seq<Tier>, total: int, s: seq<int>, s': seq<int>, k: nat)
    requires Fair(ts, total, s) && Fair(ts, total, s') && k < |ts| && forall i :: 0 <= i < k ==> s[i] == s'[i]
    ensures s[k] >= s'[k]
  {
    hide Sum, Floors;
    if s[k] < s'[k] {
      if Sum(Floors(ts)) <= total && s'[k] > Max(Floor(ts[k]), ts[k].max) {
        assert IsFirstExpandable(ts, k) && ts[k] in ts;
        forall j | 0 <= j < |ts| ensures s[j] <= s'[j] {
          BeyondBounds(ts, total, s, j);
        }
      }
      assert forall i :: k < i < |ts| ==> s[i] <= s'[i];
      SumLess(s, s', k);
    }
  }

  /** There is only one fair way to share a total, so this is what the shares are. */
  lemma FairIsUnique(ts: seq<Tier>, total: int, s: seq<int>)
    requires Sane(ts) && total >= 0
    ensures Fair(ts, total, s) <==> s == Shares(ts, total)
  {
    hide Fair, Shares, Sane;
    SharesAreFair(ts, total);
    if Fair(ts, total, s) && s != Shares(ts, total) {
      var s', k := Shares(ts, total), 0;
      FairLength(ts, total, s);
      while s[k] == s'[k]
        invariant k < |ts| && forall i :: 0 <= i < k ==> s[i] == s'[i]
        decreases |ts| - k
      {
        k := k + 1;
        assert k == |ts| ==> s == s';
      }
      NoneGetsLess(ts, total, s, s', k);
      NoneGetsLess(ts, total, s', s, k);
    }
  }

  lemma FairLength(ts: seq<Tier>, total: int, s: seq<int>)
    requires Fair(ts, total, s)
    ensures |s| == |ts|
  {
  }

  /** Raising the total never lowers any tier. */
  lemma AllocationIsMonotone(ts: seq<Tier>, total: int, total': int)
    requires Sane(ts) && 0 <= total <= total'
    ensures forall i :: 0 <= i < |ts| ==> Shares(ts, total)[i] <= Shares(ts, total')[i]
  {
    hide Serve, Sum, SecondShares, FirstShares;
    SecondIsMonotone(ts, total, total');
    SecondPass(ts, total);
    SecondPass(ts, total');
    var s, s' := SecondShares(ts, total), SecondShares(ts, total');
    if Sum(s) < total {
      forall i | 0 <= i < |ts| ensures s'[i] == s[i] { FullStaysFull(ts, total, total', i); }
      assert s == s';
    }
  }

  lemma FullStaysFull(ts: seq<Tier>, total: int, total': int, i: nat)
    requires Sane(ts) && 0 <= total <= total' && i < |ts| && Sum(SecondShares(ts, total)) < total
    ensures SecondShares(ts, total')[i] == SecondShares(ts, total)[i]
  {
    hide Serve, Sum;
    var floors := Floors(ts);
    FirstIsServed(ts, total);
    FirstIsServed(ts, total');
    ServeIsGreedy(floors, total);
    ServeIsGreedy(floors, total');
    var first := FirstShares(ts, total);
    var wants := Wants(ts, first);
    ServeIsGreedy(wants, total - Sum(first));
    SumAdd(first, Serve(wants, total - Sum(first)));
    SumNonNegative(Serve(wants, total - Sum(first)));
    ServeIsGreedy(wants, total' - Sum(floors));
    AllServed(first, floors);
  }

  lemma SecondIsMonotone(ts: seq<Tier>, total: int, total': int)
    requires Sane(ts) && 0 <= total <= total'
    ensures forall i :: 0 <= i < |ts| ==> SecondShares(ts, total)[i] <= SecondShares(ts, total')[i]
  {
    hide Serve, Sum;
    var floors := Floors(ts);
    FirstIsServed(ts, total);
    FirstIsServed(ts, total');
    ServeIsMonotone(floors, total, total');
    ServeIsGreedy(floors, total);
    ServeIsGreedy(floors, total');
    var first, first' := FirstShares(ts, total), FirstShares(ts, total');
    if total < Sum(floors) {
      NothingLeft(Wants(ts, first));
      SecondPass(ts, total');
    } else {
      assert first == first' == floors;
      ServeIsMonotone(Wants(ts, floors), total - Sum(floors), total' - Sum(floors));
    }
  }

  lemma {:induction false} NothingLeft(claims: seq<int>)
    requires NonNegative(claims)
    ensures Serve(claims, 0) == seq(|claims|, _ => 0) && Sum(Serve(claims, 0)) == 0
  {
    if claims != [] { NothingLeft(claims[..|claims| - 1]); }
  }

  // ----- The program -----

  ghost predicate DistinctNames(ts: seq<Tier>) {
    forall i, j :: 0 <= i < j < |ts| ==> ts[i].name != ts[j].name
  }

  lemma {:induction false} InsertDistinct(ts: seq<Tier>, t: Tier)
    requires DistinctNames(ts) && forall i :: 0 <= i < |ts| ==> ts[i].name != t.name
    ensures DistinctNames(Insert(ts, t))
    ensures forall x :: x in Insert(ts, t) ==> x in ts || x == t
  {
    if ts != [] && ts[|ts| - 1].priority > t.priority {
      InsertDistinct(ts[..|ts| - 1], t);
      var out := Insert(ts[..|ts| - 1], t);
      forall i | 0 <= i < |out| ensures out[i].name != ts[|ts| - 1].name {
        assert out[i] in out;
      }
    }
  }

  lemma {:induction false} SortedDistinct(ts: seq<Tier>)
    requires DistinctNames(ts)
    ensures DistinctNames(ByPriority(ts))
    ensures forall x :: x in ByPriority(ts) ==> x in ts
  {
    if ts != [] {
      SortedDistinct(ts[..|ts| - 1]);
      var init := ByPriority(ts[..|ts| - 1]);
      forall i | 0 <= i < |init| ensures init[i].name != ts[|ts| - 1].name {
        assert init[i] in init;
      }
      InsertDistinct(init, ts[|ts| - 1]);
    }
  }

  /** What the dictionary says about a name, zero if nothing. */
  function Get(m: map<string, int>, name: string): int {
    if name in m then m[name] else 0
  }

  /** The dictionary gives a tier this amount, and mentions it or not. */
  ghost predicate Gives(m: map<string, int>, t: Tier, amount: int, present: bool) {
    Get(m, t.name) == amount && (t.name in m <==> present)
  }

  /** Each share is what its claim asks for, or what the shares before it left. */
  lemma {:induction false} ServeAt(claims: seq<int>, budget: int, k: nat)
    requires k < |claims|
    ensures var s := Serve(claims, budget);
      s[k] == Min(claims[k], budget - Sum(s[..k])) && Sum(s[..k + 1]) == Sum(s[..k]) + s[k]
  {
    var s, before := Serve(claims, budget), Serve(claims[..|claims| - 1], budget);
    assert s[..|claims| - 1] == before;
    if k < |claims| - 1 {
      ServeAt(claims[..|claims| - 1], budget, k);
      assert s[..k] == before[..k] && s[..k + 1] == before[..k + 1];
    } else {
      assert s[..k + 1] == before + [s[k]];
      SumMore(before, s[k]);
    }
  }

  function Names(ts: seq<Tier>): set<string> {
    set t | t in ts :: t.name
  }

  /** What the dictionary gives away. */
  ghost function MapSum(m: map<string, int>): int
    decreases |m|
  {
    if m == map[] then 0 else
    var k :| k in m;
    m[k] + MapSum(m - {k})
  }

  lemma {:induction false} MapSumPick(m: map<string, int>, k: string)
    requires k in m
    ensures MapSum(m) == m[k] + MapSum(m - {k})
    decreases |m|
  {
    var x :| x in m && MapSum(m) == m[x] + MapSum(m - {x});
    if x != k {
      MapSumPick(m - {x}, k);
      MapSumPick(m - {k}, x);
      assert m - {x} - {k} == m - {k} - {x};
    }
  }

  lemma MapSumUpdate(m: map<string, int>, k: string, v: int)
    ensures MapSum(m[k := v]) == MapSum(m) - Get(m, k) + v
  {
    MapSumPick(m[k := v], k);
    assert m[k := v] - {k} == m - {k};
    if k in m {
      MapSumPick(m, k);
    } else {
      assert m - {k} == m;
    }
  }

  /** Nothing in the dictionary is negative, and with what is left it stays within the
      total. */
  ghost predicate Within(m: map<string, int>, remaining: int, total: int) {
    remaining >= 0 && (forall n :: n in m ==> m[n] >= 0) && MapSum(m) + remaining <= total
  }

  lemma WithinMore(m: map<string, int>, remaining: int, total: int, n: string, old0: int, more: int)
    requires Within(m, remaining, total) && 0 <= more <= remaining && (old0 == 0 || old0 == Get(m, n))
    ensures Within(m[n := old0 + more], remaining - more, total)
  {
    MapSumUpdate(m, n, old0 + more);
  }

  /** Bounds and total as they should be. */
  ghost predicate Proper(ts: seq<Tier>, total: int) {
    Sane(ts) && total >= 0
  }

  /** The first pass: minimums of the tiers that must not degrade. */
  method ServeFloors(ts: seq<Tier>, total: int) returns (result: map<string, int>, remaining: int)
    ensures remaining == total - Sum(FirstShares(ts, total)) && result.Keys <= Names(ts)
    ensures Proper(ts, total) ==> Within(result, remaining, total)
    ensures DistinctNames(ts) ==>
      forall i :: 0 <= i < |ts| ==> Gives(result, ts[i], FirstShares(ts, total)[i], !ts[i].degradable)
  {
    hide FirstShares, Within, Names, DistinctNames, Sane;
    ghost var first := FirstShares(ts, total);
    result, remaining := map[], total;
    assert Proper(ts, total) ==> Within(result, remaining, total) by { NothingGiven(total); }
    for k := 0 to |ts|
      invariant remaining == total - Sum(first[..k]) && result.Keys <= Names(ts)
      invariant Proper(ts, total) ==> Within(result, remaining, total)
      invariant DistinctNames(ts) ==> forall i :: 0 <= i < k ==> Gives(result, ts[i], first[i], !ts[i].degradable)
      invariant DistinctNames(ts) ==> forall i :: k <= i < |ts| ==> ts[i].name !in result
    {
      FirstAt(ts, total, k);
      NamedByTier(ts, k);
      if DistinctNames(ts) {
        forall i | 0 <= i < |ts| && i != k ensures ts[i].name != ts[k].name { NamesDiffer(ts, i, k); }
      }
      if !ts[k].degradable {
        var granted := Min(ts[k].min, remaining);
        if Proper(ts, total) {
          assert ts[k].min >= 0 by { NotNegative(ts, k); }
          assert remaining >= 0 by { WithinParts(result, remaining, total); }
          WithinMore(result, remaining, total, ts[k].name, 0, granted);
        }
        result := result[ts[k].name := granted];
        remaining := remaining - granted;
      }
    }
    assert first[..|ts|] == first;
  }

  lemma NotNegative(ts: seq<Tier>, k: nat)
    requires Sane(ts) && k < |ts|
    ensures ts[k].min >= 0
  {
  }

  lemma NothingGiven(total: int)
    ensures total >= 0 ==> Within(map[], total, total)
  {
  }

  lemma WithinParts(m: map<string, int>, remaining: int, total: int)
    requires Within(m, remaining, total)
    ensures remaining >= 0 && MapSum(m) <= total && forall n :: n in m ==> m[n] >= 0
  {
  }

  /** The second pass: up to the maximum of every tier, in order. */
  method ServeWants(ts: seq<Tier>, total: int, result0: map<string, int>, remaining0: int)
    returns (result: map<string, int>, remaining: int)
    requires remaining0 == total - Sum(FirstShares(ts, total)) && result0.Keys <= Names(ts)
    requires Proper(ts, total) ==> Within(result0, remaining0, total)
    requires DistinctNames(ts) ==>
      forall i :: 0 <= i < |ts| ==> Gives(result0, ts[i], FirstShares(ts, total)[i], !ts[i].degradable)
    ensures result.Keys <= Names(ts) && (Proper(ts, total) ==> Within(result, remaining, total))
    ensures DistinctNames(ts) ==> remaining == total - Sum(SecondShares(ts, total))
    ensures DistinctNames(ts) ==> forall i :: 0 <= i < |ts| ==> GivesSecond(result, ts, total, i)
  {
    hide Serve, FirstShares, Sum, Names, Within, DistinctNames;
    ghost var first := FirstShares(ts, total);
    ghost var extra := Serve(Wants(ts, first), Max(remaining0, 0));
    result, remaining := result0, remaining0;
    assert Sum(extra[..0]) == 0 by { NoSum(); }
    for k := 0 to |ts|
      invariant result.Keys <= Names(ts) && (Proper(ts, total) ==> Within(result, remaining, total))
      invariant DistinctNames(ts) ==> remaining == remaining0 - Sum(extra[..k])
      invariant DistinctNames(ts) ==> if remaining0 >= 0 then remaining >= 0 else Sum(extra[..k]) == 0
      invariant DistinctNames(ts) ==>
        forall i :: 0 <= i < k ==> Gives(result, ts[i], first[i] + extra[i], !ts[i].degradable || extra[i] > 0)
      invariant DistinctNames(ts) ==> forall i :: k <= i < |ts| ==> Gives(result, ts[i], first[i], !ts[i].degradable)
    {
      ServeAt(Wants(ts, first), Max(remaining0, 0), k);
      NamedByTier(ts, k);
      var current := if ts[k].name in result then result[ts[k].name] else 0;
      var wanted := ts[k].max - current;
      ghost var result1 := result;
      if wanted > 0 && remaining > 0 {
        var more := Min(wanted, remaining);
        if Proper(ts, total) { WithinMore(result, remaining, total, ts[k].name, current, more); }
        result := result[ts[k].name := current + more];
        remaining := remaining - more;
      }
      if DistinctNames(ts) {
        assert Gives(result1, ts[k], first[k], !ts[k].degradable);
        forall i | 0 <= i < |ts| && i != k
          ensures Get(result, ts[i].name) == Get(result1, ts[i].name)
          ensures ts[i].name in result <==> ts[i].name in result1
        {
          NamesDiffer(ts, i, k);
        }
      }
    }
    assert extra[..|ts|] == extra;
    SumAdd(first, extra);
  }

  ghost predicate GivesSecond(m: map<string, int>, ts: seq<Tier>, total: int, i: nat)
    requires i < |ts|
  {
    var first, second := FirstShares(ts, total), SecondShares(ts, total);
    Gives(m, ts[i], second[i], !ts[i].degradable || second[i] > first[i])
  }

  /** A tier has its share, and is in the dictionary exactly if it must not degrade or
      gained something. */
  ghost predicate GivesShare(m: map<string, int>, ts: seq<Tier>, total: int, i: nat)
    requires i < |ts|
  {
    var first, shares := FirstShares(ts, total), Shares(ts, total);
    Gives(m, ts[i], shares[i], !ts[i].degradable || shares[i] > first[i])
  }

  lemma NamesDiffer(ts: seq<Tier>, i: nat, k: nat)
    requires DistinctNames(ts) && i < |ts| && k < |ts| && i != k
    ensures ts[i].name != ts[k].name
  {
  }

  lemma NamedByTier(ts: seq<Tier>, k: nat)
    requires k < |ts|
    ensures ts[k].name in Names(ts)
  {
    assert ts[k] in ts;
  }

  lemma NoSum()
    ensures Sum([]) == 0
  {
  }

  /** All three passes, on any tiers and any total.  No more than the total is given
      away; and unless two tiers have one name, so that the later entry replaces the
      earlier, every tier gets its share, and appears in the dictionary exactly if it
      must not degrade or gained something. */
  method Allocate(tiers: seq<Tier>, total: int) returns (result: map<string, int>)
    ensures result.Keys <= Names(ByPriority(tiers))
    ensures Ascending(ByPriority(tiers)) && multiset(ByPriority(tiers)) == multiset(tiers)
    ensures Sane(tiers) && total >= 0 ==> MapSum(result) <= total && forall n :: n in result ==> result[n] >= 0
    ensures DistinctNames(tiers) ==>
      var ts := ByPriority(tiers); forall i :: 0 <= i < |ts| ==> GivesShare(result, ts, total, i)
    ensures DistinctNames(tiers) && Sane(tiers) && total >= 0 ==> GivesFairly(result, ByPriority(tiers), total)
  {
    hide Serve, Sum, FirstShares, SecondShares, Shares, Ascending, DistinctNames, ByPriority, Names, Within,
      GivesSecond, GivesShare, MapSum, Sane;
    ByPrioritySorts(tiers);
    if DistinctNames(tiers) { SortedDistinct(tiers); }
    if Sane(tiers) { SortedSane(tiers); }
    var ts := ByPriority(tiers);
    var remaining;
    result, remaining := ServeFloors(ts, total);
    result, remaining := ServeWants(ts, total, result, remaining);
    if Proper(ts, total) { WithinParts(result, remaining, total); }
    result, remaining := ServeLeftover(ts, total, result, remaining);
    if Proper(ts, total) { WithinParts(result, remaining, total); }
    if DistinctNames(tiers) && Proper(ts, total) { SharesGiveFairly(result, ts, total); }
  }

  /** Tier by tier the dictionary holds fair amounts; it mentions a tier exactly if that
      must not degrade or got something. */
  ghost predicate GivesFairly(m: map<string, int>, ts: seq<Tier>, total: int) {
    && (exists s :: Fair(ts, total, s) && forall i :: 0 <= i < |ts| ==> s[i] == Get(m, ts[i].name))
    && forall t :: t in ts ==> (t.name in m <==> !t.degradable || Get(m, t.name) > 0)
  }

  lemma SharesGiveFairly(m: map<string, int>, ts: seq<Tier>, total: int)
    requires Proper(ts, total) && forall i :: 0 <= i < |ts| ==> GivesShare(m, ts, total, i)
    ensures GivesFairly(m, ts, total)
  {
    hide FirstShares, Shares, Fair, Sane;
    SharesAreFair(ts, total);
    var s := Shares(ts, total);
    forall i | 0 <= i < |ts|
      ensures s[i] == Get(m, ts[i].name) && (ts[i].name in m <==> !ts[i].degradable || Get(m, ts[i].name) > 0)
    {
      assert GivesShare(m, ts, total, i);
      if ts[i].degradable { DegradableStartsAtZero(ts, total, i); }
    }
  }

  lemma SortedSane(tiers: seq<Tier>)
    requires Sane(tiers) && multiset(ByPriority(tiers)) == multiset(tiers)
    ensures Sane(ByPriority(tiers))
  {
    hide ByPriority;
    var ts := ByPriority(tiers);
    forall i | 0 <= i < |ts| ensures 0 <= ts[i].min && 0 <= ts[i].max {
      assert ts[i] in multiset(ts) && ts[i] in multiset(tiers);
    }
  }

  /** The third pass: the first tier that may expand takes what is left. */
  method ServeLeftover(ts: seq<Tier>, total: int, result0: map<string, int>, remaining0: int)
    returns (result: map<string, int>, remaining: int)
    requires result0.Keys <= Names(ts) && (Proper(ts, total) ==> Within(result0, remaining0, total))
    requires DistinctNames(ts) ==> remaining0 == total - Sum(SecondShares(ts, total))
    requires DistinctNames(ts) ==> forall i :: 0 <= i < |ts| ==> GivesSecond(result0, ts, total, i)
    ensures result.Keys <= Names(ts) && (Proper(ts, total) ==> Within(result, remaining, total))
    ensures DistinctNames(ts) ==> forall i :: 0 <= i < |ts| ==> GivesShare(result, ts, total, i)
  {
    hide Serve, Sum, FirstShares, SecondShares, Names, Within;
    SecondAtLeastFirst(ts, total);
    result, remaining := result0, remaining0;
    if remaining > 0 {
      for k := 0 to |ts|
        invariant forall i :: 0 <= i < k ==> !ts[i].expandable
      {
        if ts[k].expandable {
          assert FirstExpandable(ts) == k;
          var current := if ts[k].name in result then result[ts[k].name] else 0;
          if DistinctNames(ts) { assert GivesSecond(result0, ts, total, k); }
          NamedByTier(ts, k);
          if Proper(ts, total) { WithinMore(result, remaining, total, ts[k].name, current, remaining); }
          result := result[ts[k].name := current + remaining];
          remaining := 0;
          forall i | 0 <= i < |ts| && DistinctNames(ts) ensures GivesShare(result, ts, total, i) {
            assert GivesSecond(result0, ts, total, i);
          }
          return;
        }
      }
    }
    forall i | 0 <= i < |ts| && DistinctNames(ts) ensures GivesShare(result, ts, total, i) {
      assert GivesSecond(result0, ts, total, i);
    }
  }

  lemma SecondAtLeastFirst(ts: seq<Tier>, total: int)
    ensures forall i :: 0 <= i < |ts| ==> FirstShares(ts, total)[i] <= SecondShares(ts, total)[i]
  {
    hide Serve, Sum;
    var first := FirstShares(ts, total);
    ServeIsGreedy(Wants(ts, first), Max(total - Sum(first), 0));
  }

  // ----- A negative total -----

  predicate MustNotDegrade(ts: seq<Tier>) {
    exists t :: t in ts && !t.degradable
  }

  lemma {:induction false} FirstSum(ts: seq<Tier>, total: int)
    requires Sane(ts) && total < 0
    ensures Sum(FirstShares(ts, total)) == (if MustNotDegrade(ts) then total else 0)
    ensures forall i :: 0 <= i < |ts| ==> FirstShares(ts, total)[i] <= 0
  {
    if ts != [] {
      var init, last := ts[..|ts| - 1], ts[|ts| - 1];
      FirstSum(init, total);
      SumMore(FirstShares(init, total), FirstShares(ts, total)[|ts| - 1]);
      assert ts == init + [last];
      assert MustNotDegrade(ts) <==> MustNotDegrade(init) || !last.degradable by {
        assert forall t :: t in ts <==> t in init || t == last;
      }
    }
  }

  /** A negative total leaves nobody with anything, and the allocation stays within it
      exactly if there is a tier that must not degrade, which then bears the debt. */
  lemma NegativeTotal(ts: seq<Tier>, total: int)
    requires Sane(ts) && total < 0
    ensures forall i :: 0 <= i < |ts| ==> Shares(ts, total)[i] <= 0
    ensures Sum(Shares(ts, total)) <= total <==> MustNotDegrade(ts)
  {
    hide Serve, Sum, FirstShares;
    FirstSum(ts, total);
    var first := FirstShares(ts, total);
    var wants := Wants(ts, first);
    NothingLeft(wants);
    SumAdd(first, Serve(wants, 0));
  }

  // ----- The legacy limit for archives -----

  const IDENTITY: Tier := Tier("identity", 0, 500, 5000, false, false)
  const SESSION_STATE: Tier := Tier("session_state", 1, 1000, 10000, false, false)
  const ARCHIVE: Tier := Tier("archive", 5, 500, 40000, true, false)
  const WORKING_SET: Tier := Tier("working_set", 8, 0, 20000, true, true)
  const DEFAULT_TIERS: seq<Tier> := [IDENTITY, SESSION_STATE, ARCHIVE, WORKING_SET]

  const DEFAULT_RATIO: real := 0.7

  /** int() of Python: the fraction is cut off. */
  function Truncated(x: real): int {
    if x >= 0.0 then x.Floor else -((-x).Floor)
  }

  /** Cutting off goes towards zero and takes less than one. */
  lemma TruncatedIs(x: real)
    ensures x >= 0.0 ==> Truncated(x) >= 0 && Truncated(x) as real <= x < Truncated(x) as real + 1.0
    ensures x <= 0.0 ==> Truncated(x) <= 0 && Truncated(x) as real - 1.0 < x <= Truncated(x) as real
  {
  }

  /** What archive_limit promises for these tiers. */
  ghost predicate IsArchiveLimit(tiers: seq<Tier>, total: int, ratio: real, limit: int) {
    var ts, fallback := ByPriority(tiers), Truncated(total as real * ratio);
    && ("archive" !in Names(ts) ==> limit == fallback)
    && (Sane(tiers) && total >= 0 ==> limit == fallback || 0 <= limit <= total)
    && (DistinctNames(tiers) ==>
      forall i :: 0 <= i < |ts| && ts[i].name == "archive" ==> limit == OwnLimit(ts, total, i, fallback))
  }

  /** The share of tier i, or the fallback if the allocation does not mention it. */
  function OwnLimit(ts: seq<Tier>, total: int, i: nat, fallback: int): int
    requires i < |ts|
  {
    if ts[i].degradable && Shares(ts, total)[i] <= FirstShares(ts, total)[i] then fallback else Shares(ts, total)[i]
  }

  /** archive_limit falls back on a fraction of the total when the allocation holds no
      entry for archives. */
  method ArchiveLimit(tiers: seq<Tier>, total: int, ratio: real) returns (limit: int)
    ensures IsArchiveLimit(tiers, total, ratio, limit)
  {
    hide Shares, FirstShares, Ascending, DistinctNames, ByPriority, Truncated, Names, Sane;
    var result := Allocate(tiers, total);
    limit := if "archive" in result then result["archive"] else Truncated(total as real * ratio);
    if Sane(tiers) && total >= 0 && "archive" in result { OneOfMany(result, "archive"); }
    if DistinctNames(tiers) {
      var ts := ByPriority(tiers);
      forall i | 0 <= i < |ts| && ts[i].name == "archive"
        ensures limit == OwnLimit(ts, total, i, Truncated(total as real * ratio))
      {
        assert GivesShare(result, ts, total, i);
      }
    }
  }

  lemma OneOfMany(m: map<string, int>, n: string)
    requires n in m && forall k :: k in m ==> m[k] >= 0
    ensures m[n] <= MapSum(m)
  {
    MapSumPick(m, n);
    SumNotNegative(m - {n});
  }

  lemma {:induction false} SumNotNegative(m: map<string, int>)
    requires forall k :: k in m ==> m[k] >= 0
    ensures MapSum(m) >= 0
    decreases |m|
  {
    if m != map[] {
      var k :| k in m && MapSum(m) == m[k] + MapSum(m - {k});
      SumNotNegative(m - {k});
    }
  }

  lemma DefaultsAreDistinct()
    ensures DistinctNames(DEFAULT_TIERS)
  {
    assert "identity"[0] != "session_state"[0] && "identity"[0] != "archive"[0];
  }

  lemma DefaultsAreSorted()
    ensures ByPriority(DEFAULT_TIERS) == DEFAULT_TIERS
  {
    assert DEFAULT_TIERS[..3] == [IDENTITY, SESSION_STATE, ARCHIVE] &&
      DEFAULT_TIERS[..3][..2] == [IDENTITY, SESSION_STATE];
    assert DEFAULT_TIERS[..3][..2][..1] == [IDENTITY];
    assert ByPriority([IDENTITY]) == [IDENTITY];
    assert ByPriority([IDENTITY, SESSION_STATE]) == [IDENTITY, SESSION_STATE];
  }

  lemma DegradableStartsAtZero(ts: seq<Tier>, total: int, i: nat)
    requires Sane(ts) && total >= 0 && i < |ts| && ts[i].degradable
    ensures FirstShares(ts, total)[i] == 0
  {
    FirstIsServed(ts, total);
    ServeIsGreedy(Floors(ts), total);
  }

  /** With the default tiers archives get nothing exactly up to a total of 15000, and
      the other three then share the whole total. */
  lemma DefaultShares(total: int)
    ensures var s := Shares(DEFAULT_TIERS, total);
      s[0] + s[1] + s[2] + s[3] == total && (s[2] <= 0 <==> total <= 15000) && s[2] >= 0
  {
    hide Shares, FirstShares, SecondShares, Serve;
    var ts, s := DEFAULT_TIERS, Shares(DEFAULT_TIERS, total);
    assert Sum(s) == s[0] + s[1] + s[2] + s[3] by { SumOfFour(s); }
    if total >= 0 {
      AllocationFitsTotal(ts, total);
      assert ts[3] in ts && ts[3].expandable;
      AllocationRespectsTiers(ts, total);
      DegradableStartsAtZero(ts, total, 2);
      DegradableStartsAtZero(ts, total, 3);
    } else {
      NegativeDefaults(total);
    }
  }

  /** What archive_limit returns for the default tiers: up to a total of 15000 the
      fraction of the total, although all of it is given to the other tiers.  The limits
      then add up to more than the total exactly if the fraction is worth a token. */
  lemma FallbackOvercommits(total: int, ratio: real, limit: int)
    requires IsArchiveLimit(DEFAULT_TIERS, total, ratio, limit)
    ensures var s := Shares(DEFAULT_TIERS, total);
      && limit == (if total <= 15000 then Truncated(total as real * ratio) else s[2])
      && (s[0] + s[1] + limit + s[3] > total <==> total <= 15000 && total as real * ratio >= 1.0)
  {
    hide Shares, FirstShares, Names, ByPriority, DistinctNames, Sane;
    var ts := DEFAULT_TIERS;
    DefaultsAreDistinct();
    DefaultsAreSorted();
    DefaultShares(total);
    FirstAt(ts, total, 2);
    assert ts[2].name == "archive" && ts[2].degradable;
    assert limit == OwnLimit(ts, total, 2, Truncated(total as real * ratio));
  }

  /** archive_limit of a budget that was only given its total and its ratio. */
  method DefaultArchiveLimit(total: int, ratio: real) returns (limit: int)
    ensures var s := Shares(DEFAULT_TIERS, total);
      && limit == (if total <= 15000 then Truncated(total as real * ratio) else s[2])
      && (s[0] + s[1] + limit + s[3] > total <==> total <= 15000 && total as real * ratio >= 1.0)
    ensures ratio == DEFAULT_RATIO ==>
      var s := Shares(DEFAULT_TIERS, total); s[0] + s[1] + limit + s[3] > total <==> 2 <= total <= 15000
  {
    hide Shares, IsArchiveLimit;
    limit := ArchiveLimit(DEFAULT_TIERS, total, ratio);
    FallbackOvercommits(total, ratio, limit);
  }

  lemma NegativeDefaults(total: int)
    requires total < 0
    ensures var s := Shares(DEFAULT_TIERS, total); s[2] == 0 && Sum(s) == total
  {
    hide Serve, Sum;
    var ts := DEFAULT_TIERS;
    assert ts[0] in ts;
    FirstSum(ts, total);
    FirstAt(ts, total, 2);
    var first := FirstShares(ts, total);
    NothingLeft(Wants(ts, first));
    SumAdd(first, Serve(Wants(ts, first), 0));
  }

  lemma SumOfFour(s: seq<int>)
    requires |s| == 4
    ensures Sum(s) == s[0] + s[1] + s[2] + s[3]
  {
    hide Sum;
    NoSum();
    SumMore([], s[0]);
    SumMore([s[0]], s[1]);
    SumMore([s[0], s[1]], s[2]);
    SumMore([s[0], s[1], s[2]], s[3]);
    assert s == [s[0], s[1], s[2]] + [s[3]] && [] + [s[0]] == [s[0]];
    assert [s[0]] + [s[1]] == [s[0], s[1]] && [s[0], s[1]] + [s[2]] == [s[0], s[1], s[2]];
  }
}
