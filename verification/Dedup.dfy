/** Run-length folding of repeated lines, filter/core/dedup.py, on sequences of lines. */
module Dedup {
  import opened TextLines

  type Line = string

  const HEAD: string := "// ... line repeated "

  function Tail(count: nat): string {
    " times (total: " + Decimal(count) + ")"
  }

  /** The line that stands for the other count - 1 copies. */
  function Marker(count: nat): Line
    requires count >= 1
  {
    HEAD + (Decimal(count - 1) + Tail(count))
  }

  ghost predicate IsMarker(l: Line) {
    exists count: nat {:trigger MarkerOf(l, count)} :: MarkerOf(l, count)
  }

  predicate MarkerOf(l: Line, count: nat) {
    count >= 1 && l == Marker(count)
  }

  lemma MarkerInjective(m: nat, n: nat)
    requires m >= 1 && n >= 1 && Marker(m) == Marker(n)
    ensures m == n
  {
    hide Decimal, Tail;
    SameTail(HEAD, Decimal(m - 1) + Tail(m), Decimal(n - 1) + Tail(n));
    TailStart(m);
    TailStart(n);
    DigitsEnd(Decimal(m - 1), Decimal(n - 1), Tail(m), Tail(n));
    DecimalInjective(m - 1, n - 1);
  }

  lemma TailStart(count: nat)
    ensures Tail(count) != "" && !IsDigit(Tail(count)[0]) && Tail(count)[|Tail(count)| - 1] == ')'
  {
    hide Decimal;
  }

  /** The two visible characters a marker starts and ends with are no white space. */
  ghost predicate Ordinary(space: char -> bool) {
    !space('/') && !space(')')
  }

  lemma MarkerStable(count: nat, space: char -> bool)
    requires count >= 1 && Ordinary(space)
    ensures Strip(Marker(count), space) == Marker(count) != ""
  {
    hide Decimal, Tail;
    var s := Marker(count);
    TailStart(count);
    assert s[0] == HEAD[0] == '/' && s[|s| - 1] == ')';
    Stable(s, space);
  }

  // ----- Specification -----

  function Copies(l: Line, n: nat): (ls: seq<Line>)
    ensures |ls| == n && forall i :: 0 <= i < n ==> ls[i] == l
  {
    seq(n, _ => l)
  }

  /** How many lines from the first on are equal to s once stripped. */
  function Run(ls: seq<Line>, s: string, space: char -> bool): (n: nat)
    ensures n <= |ls| && forall i :: 0 <= i < n ==> Strip(ls[i], space) == s
    ensures n < |ls| ==> Strip(ls[n], space) != s
  {
    if ls == [] || Strip(ls[0], space) != s then 0 else 1 + Run(ls[1..], s, space)
  }

  /** The lines one run turns into. */
  function Block(l: Line, n: nat, space: char -> bool, limit: int): seq<Line>
    requires n >= 1
  {
    if n > limit then [Strip(l, space), Marker(n)] else Copies(l, n)
  }

  /** `follows` says whether the text so far ends in a line that is not blank. */
  function Folded(ls: seq<Line>, follows: bool, space: char -> bool, limit: int): seq<Line>
    decreases |ls|
  {
    if ls == [] then []
    else if Strip(ls[0], space) == "" then
      if follows then [""] + Folded(ls[1..], false, space, limit) else Folded(ls[1..], follows, space, limit)
    else
      var n := Run(ls, Strip(ls[0], space), space);
      Block(ls[0], n, space, limit) + Folded(ls[n..], true, space, limit)
  }

  /** Stripped lines without leading blanks, blank runs collapsed to one. */
  function Normal(ls: seq<Line>, follows: bool, space: char -> bool): seq<Line> {
    if ls == [] then []
    else if Strip(ls[0], space) == "" then
      if follows then [""] + Normal(ls[1..], false, space) else Normal(ls[1..], follows, space)
    else [Strip(ls[0], space)] + Normal(ls[1..], true, space)
  }

  /** Read markers back: each stands for copies of the line before it. */
  ghost function Expand(ls: seq<Line>, space: char -> bool): seq<Line>
    decreases |ls|
  {
    if ls == [] then []
    else if |ls| >= 2 && IsMarker(Strip(ls[1], space)) then
      var n: nat :| MarkerOf(Strip(ls[1], space), n);
      Copies(Strip(ls[0], space), n) + Expand(ls[2..], space)
    else [Strip(ls[0], space)] + Expand(ls[1..], space)
  }

  ghost predicate MarkerFree(ls: seq<Line>, space: char -> bool) {
    forall l :: l in ls ==> !IsMarker(Strip(l, space))
  }

  // ----- Expanding is the inverse -----

  lemma MarkerFreeTail(ls: seq<Line>, space: char -> bool, n: nat)
    requires MarkerFree(ls, space) && n <= |ls|
    ensures MarkerFree(ls[n..], space)
  {
  }

  lemma {:induction false} NormalRun(ls: seq<Line>, space: char -> bool, n: nat, s: string)
    requires 1 <= n <= |ls| && s != "" && forall i :: 0 <= i < n ==> Strip(ls[i], space) == s
    ensures forall follows :: Normal(ls, follows, space) == Copies(s, n) + Normal(ls[n..], true, space)
  {
    forall follows ensures Normal(ls, follows, space) == Copies(s, n) + Normal(ls[n..], true, space) {
      if n == 1 {
        assert Copies(s, 1) == [s];
      } else {
        NormalRun(ls[1..], space, n - 1, s);
        assert ls[1..][n - 1..] == ls[n..];
        assert Copies(s, n) == [s] + Copies(s, n - 1);
      }
    }
  }

  /** What a folded text starts with. */
  lemma {:induction false} FirstFolded(ls: seq<Line>, follows: bool, space: char -> bool, limit: int)
    ensures var out := Folded(ls, follows, space, limit);
      && (out != [] ==> Strip(out[0], space) == "" || exists l :: l in ls && Strip(l, space) == Strip(out[0], space))
      && (ls != [] && (follows || Strip(ls[0], space) != "") ==>
        out != [] && Strip(out[0], space) == Strip(ls[0], space))
    decreases |ls|
  {
    if ls != [] {
      if Strip(ls[0], space) == "" {
        if !follows {
          FirstFolded(ls[1..], follows, space, limit);
        }
      } else {
        StripTwice(ls[0], space);
      }
    }
  }

  lemma ExpandMarker(l: Line, n: nat, rest: seq<Line>, space: char -> bool)
    requires n >= 1 && Ordinary(space)
    ensures Expand([l, Marker(n)] + rest, space) == Copies(Strip(l, space), n) + Expand(rest, space)
  {
    hide Marker, Strip;
    var ls := [l, Marker(n)] + rest;
    MarkerStable(n, space);
    assert MarkerOf(Strip(ls[1], space), n);
    assert ls[2..] == rest;
    forall m: nat | MarkerOf(Strip(ls[1], space), m) ensures m == n {
      MarkerInjective(m, n);
    }
  }

  lemma {:induction false} ExpandCopies(l: Line, n: nat, rest: seq<Line>, space: char -> bool)
    requires !IsMarker(Strip(l, space)) && (rest != [] ==> !IsMarker(Strip(rest[0], space)))
    ensures Expand(Copies(l, n) + rest, space) == Copies(Strip(l, space), n) + Expand(rest, space)
  {
    hide IsMarker, Strip, Expand;
    if n == 0 {
      assert Copies(l, n) + rest == rest;
      assert Copies(Strip(l, space), n) == [];
    } else {
      ExpandCopies(l, n - 1, rest, space);
      CopiesMore(l, n, rest);
      ExpandPlain(l, Copies(l, n - 1) + rest, space);
      CopiesMore(Strip(l, space), n, Expand(rest, space));
    }
  }

  lemma CopiesMore(l: Line, n: nat, rest: seq<Line>)
    requires n >= 1
    ensures Copies(l, n) + rest == [l] + (Copies(l, n - 1) + rest)
  {
  }

  lemma ExpandPlain(l: Line, rest: seq<Line>, space: char -> bool)
    requires rest != [] ==> !IsMarker(Strip(rest[0], space))
    ensures Expand([l] + rest, space) == [Strip(l, space)] + Expand(rest, space)
  {
    hide IsMarker, Strip;
    assert ([l] + rest)[1..] == rest;
  }

  lemma EmptyIsNoMarker(space: char -> bool)
    ensures Strip("", space) == "" && !IsMarker("")
  {
    forall n: nat ensures !MarkerOf("", n) {
    }
  }

  lemma NoMarkerFirst(ls: seq<Line>, follows: bool, space: char -> bool, limit: int)
    requires MarkerFree(ls, space)
    ensures var out := Folded(ls, follows, space, limit); out != [] ==> !IsMarker(Strip(out[0], space))
  {
    FirstFolded(ls, follows, space, limit);
    EmptyIsNoMarker(space);
  }

  /** Folding is a run-length code: on lines that are no markers, expanding the
      markers gives back the stripped input with its blank lines collapsed. */
  lemma {:induction false} ExpandInvertsFolded(ls: seq<Line>, follows: bool, space: char -> bool, limit: int)
    requires MarkerFree(ls, space) && Ordinary(space)
    ensures Expand(Folded(ls, follows, space, limit), space) == Normal(ls, follows, space)
    decreases |ls|
  {
    hide Strip, IsMarker, Marker, Expand;
    if ls == [] {
      assert Expand([], space) == [] by { ExpandNothing(space); }
    } else if Strip(ls[0], space) == "" {
      MarkerFreeTail(ls, space, 1);
      ExpandInvertsFolded(ls[1..], follows && false, space, limit);
      if follows {
        NoMarkerFirst(ls[1..], false, space, limit);
        EmptyIsNoMarker(space);
        ExpandPlain("", Folded(ls[1..], false, space, limit), space);
      }
    } else {
      var s := Strip(ls[0], space);
      var n := Run(ls, s, space);
      var rest := Folded(ls[n..], true, space, limit);
      MarkerFreeTail(ls, space, n);
      ExpandInvertsFolded(ls[n..], true, space, limit);
      NormalRun(ls, space, n, s);
      StripTwice(ls[0], space);
      if n > limit {
        ExpandMarker(s, n, rest, space);
      } else {
        NoMarkerFirst(ls[n..], true, space, limit);
        ExpandCopies(ls[0], n, rest, space);
      }
    }
  }

  lemma ExpandNothing(space: char -> bool)
    ensures Expand([], space) == []
  {
  }

  // ----- Folding twice changes nothing more -----

  lemma {:induction false} RunOfCopies(l: Line, n: nat, rest: seq<Line>, s: string, space: char -> bool)
    requires Strip(l, space) == s && (rest != [] ==> Strip(rest[0], space) != s)
    ensures Run(Copies(l, n) + rest, s, space) == n
  {
    hide Strip;
    if n == 0 {
      assert Copies(l, n) + rest == rest;
    } else {
      RunOfCopies(l, n - 1, rest, s, space);
      CopiesMore(l, n, rest);
      assert ([l] + (Copies(l, n - 1) + rest))[1..] == Copies(l, n - 1) + rest;
    }
  }

  /** A run that is short enough is left as it is. */
  lemma KeepCopies(l: Line, n: nat, rest: seq<Line>, follows: bool, space: char -> bool, limit: int)
    requires 1 <= n <= limit && Strip(l, space) != "" && (rest != [] ==> Strip(rest[0], space) != Strip(l, space))
    ensures Folded(Copies(l, n) + rest, follows, space, limit) == Copies(l, n) + Folded(rest, true, space, limit)
  {
    hide Strip;
    RunOfCopies(l, n, rest, Strip(l, space), space);
    assert (Copies(l, n) + rest)[n..] == rest;
  }

  lemma KeepOne(l: Line, rest: seq<Line>, follows: bool, space: char -> bool, limit: int)
    requires 1 <= limit && Strip(l, space) != "" && (rest != [] ==> Strip(rest[0], space) != Strip(l, space))
    ensures Folded([l] + rest, follows, space, limit) == [l] + Folded(rest, true, space, limit)
  {
    assert Copies(l, 1) == [l];
    KeepCopies(l, 1, rest, follows, space, limit);
  }

  /** What follows a run in the folded text is different from it. */
  lemma NextDiffers(ls: seq<Line>, s: string, space: char -> bool, limit: int)
    requires s != "" && (ls != [] ==> Strip(ls[0], space) != s)
    ensures var out := Folded(ls, true, space, limit); out != [] ==> Strip(out[0], space) != s
  {
    hide Strip;
    FirstFolded(ls, true, space, limit);
  }

  lemma {:induction false} FoldedTwice(ls: seq<Line>, follows: bool, space: char -> bool, limit: int)
    requires MarkerFree(ls, space) && Ordinary(space) && limit >= 1
    ensures var out := Folded(ls, follows, space, limit); Folded(out, follows, space, limit) == out
    decreases |ls|
  {
    hide Strip, IsMarker, Marker;
    if ls != [] {
      if Strip(ls[0], space) == "" {
        MarkerFreeTail(ls, space, 1);
        FoldedTwice(ls[1..], follows && false, space, limit);
        if follows {
          EmptyIsNoMarker(space);
          assert ([""] + Folded(ls[1..], false, space, limit))[1..] == Folded(ls[1..], false, space, limit);
        }
      } else {
        var s := Strip(ls[0], space);
        var n := Run(ls, s, space);
        var rest := Folded(ls[n..], true, space, limit);
        MarkerFreeTail(ls, space, n);
        FoldedTwice(ls[n..], true, space, limit);
        NextDiffers(ls[n..], s, space, limit);
        if n > limit {
          FoldedMarker(ls, s, n, rest, follows, space, limit);
        } else {
          KeepCopies(ls[0], n, rest, follows, space, limit);
        }
      }
    }
  }

  lemma FoldedMarker(ls: seq<Line>, s: string, n: nat, rest: seq<Line>, follows: bool, space: char -> bool, limit: int)
    requires ls != [] && MarkerFree(ls, space) && Ordinary(space) && limit >= 1 && s == Strip(ls[0], space) != ""
    requires 1 <= n <= |ls|
    requires rest == Folded(ls[n..], true, space, limit) && Folded(rest, true, space, limit) == rest
    ensures Folded([s, Marker(n)] + rest, follows, space, limit) == [s, Marker(n)] + rest
  {
    hide Strip, IsMarker, Marker;
    var m := Marker(n);
    MarkerStable(n, space);
    MarkerFreeTail(ls, space, n);
    NoMarkerFirst(ls[n..], true, space, limit);
    IsMarkerOf(n);
    StripTwice(ls[0], space);
    assert ls[0] in ls && !IsMarker(s);
    KeepOne(m, rest, true, space, limit);
    KeepOne(s, [m] + rest, follows, space, limit);
    assert [s] + ([m] + rest) == [s, m] + rest;
  }

  lemma IsMarkerOf(n: nat)
    requires n >= 1
    ensures IsMarker(Marker(n))
  {
    assert MarkerOf(Marker(n), n);
  }

  // ----- Run by run -----

  function Concat(parts: seq<seq<Line>>): seq<Line> {
    if parts == [] then [] else parts[0] + Concat(parts[1..])
  }

  /** The text cut into its longest runs of lines that are equal once stripped. */
  ghost predicate Runs(ls: seq<Line>, runs: seq<seq<Line>>, space: char -> bool) {
    && Concat(runs) == ls
    && (forall k :: 0 <= k < |runs| ==> runs[k] != [] && AllLike(runs[k], Strip(runs[k][0], space), space))
    && (forall j, k :: 0 <= j && k == j + 1 && k < |runs| ==> Differ(runs[j], runs[k], space))
  }

  ghost predicate Differ(run: seq<Line>, next: seq<Line>, space: char -> bool) {
    run != [] && next != [] && Strip(run[0], space) != Strip(next[0], space)
  }

  ghost predicate AllLike(ls: seq<Line>, s: string, space: char -> bool) {
    forall l :: l in ls ==> Strip(l, space) == s
  }

  /** "// ... line repeated n - 1 times (total: n)". */
  ghost predicate Notes(l: Line, n: nat) {
    n >= 1 && exists more, all ::
      IsDecimal(more, n - 1) && IsDecimal(all, n) && l == "// ... line repeated " + more + " times (total: " + all + ")"
  }

  /** A blank run becomes one empty line, or none at the start of the text; a run longer
      than the limit becomes its line and a note of its length; any other stays as long
      as it is. */
  ghost predicate PartOf(run: seq<Line>, part: seq<Line>, first: bool, space: char -> bool, limit: int)
    requires run != []
  {
    var s := Strip(run[0], space);
    if s == "" then part == if first then [] else [""]
    else if |run| > limit then |part| == 2 && part[0] == s && Notes(part[1], |run|)
    else |part| == |run| && forall l :: l in part ==> l == run[0]
  }

  ghost predicate Parts(runs: seq<seq<Line>>, parts: seq<seq<Line>>, first: bool, space: char -> bool, limit: int)
    requires forall k :: 0 <= k < |runs| ==> runs[k] != []
  {
    |parts| == |runs| && forall k :: 0 <= k < |runs| ==> PartOf(runs[k], parts[k], k == 0 && first, space, limit)
  }

  lemma MarkerNotes(n: nat)
    requires n >= 1
    ensures Notes(Marker(n), n)
  {
    hide Decimal, IsDecimal;
    DecimalReads(n - 1);
    DecimalReads(n);
    assert Marker(n) == "// ... line repeated " + Decimal(n - 1) + " times (total: " + Decimal(n) + ")";
  }

  lemma {:induction false} BlankRun(ls: seq<Line>, n: nat, follows: bool, space: char -> bool, limit: int)
    requires n <= |ls| && AllLike(ls[..n], "", space) && (n < |ls| ==> Strip(ls[n], space) != "")
    ensures Folded(ls, follows, space, limit) ==
      (if n > 0 && follows then [""] else []) + Folded(ls[n..], true, space, limit)
  {
    hide Strip, Block;
    if n == 0 {
      assert ls[0..] == ls;
    } else {
      assert ls[0] in ls[..n];
      assert ls[1..][..n - 1] == ls[..n][1..] && ls[1..][n - 1..] == ls[n..];
      BlankRun(ls[1..], n - 1, false, space, limit);
    }
  }

  /** The text cut into runs, and what becomes of each. */
  lemma {:induction false} FoldsRunByRun(ls: seq<Line>, follows: bool, space: char -> bool, limit: int)
    returns (runs: seq<seq<Line>>, parts: seq<seq<Line>>)
    ensures Runs(ls, runs, space) && Parts(runs, parts, !follows, space, limit)
    ensures Folded(ls, follows, space, limit) == Concat(parts)
    decreases |ls|
  {
    hide Strip, Marker, Notes, PartOf, Parts, Runs, Concat, Block;
    if ls == [] {
      NothingInParts(!follows, space, limit);
      runs, parts := [], [];
    } else {
      var s := Strip(ls[0], space);
      var n := Run(ls, s, space);
      var run, rest := ls[..n], ls[n..];
      var part := if s != "" then Block(ls[0], n, space, limit) else if follows then [""] else [];
      assert Folded(ls, follows, space, limit) == part + Folded(rest, true, space, limit) by {
        if s == "" { BlankRun(ls, n, follows, space, limit); }
      }
      var runs1, parts1 := FoldsRunByRun(rest, true, space, limit);
      runs, parts := [run] + runs1, [part] + parts1;
      assert run + rest == ls;
      RunsMore(run, rest, runs1, space);
      ConcatMore(part, parts1);
      assert PartOf(run, part, !follows, space, limit) by { BlockIsPart(ls[0], run, part, follows, space, limit); }
      PartsMore(run, part, runs1, parts1, !follows, space, limit);
    }
  }

  lemma NothingInParts(first: bool, space: char -> bool, limit: int)
    ensures Runs([], [], space) && Parts([], [], first, space, limit) && Concat([]) == []
  {
  }

  lemma ConcatMore(part: seq<Line>, parts: seq<seq<Line>>)
    ensures Concat([part] + parts) == part + Concat(parts)
  {
    assert ([part] + parts)[1..] == parts;
  }

  lemma RunsMore(run: seq<Line>, rest: seq<Line>, runs: seq<seq<Line>>, space: char -> bool)
    requires run != [] && Runs(rest, runs, space) && AllLike(run, Strip(run[0], space), space)
    requires rest != [] ==> Strip(rest[0], space) != Strip(run[0], space)
    ensures Runs(run + rest, [run] + runs, space)
    ensures forall k :: 0 <= k < |runs| ==> runs[k] != []
  {
    hide Strip;
    ConcatMore(run, runs);
    var rs := [run] + runs;
    if rest != [] { StartsWith(runs, rest); } else { EmptyRuns(runs); }
    forall j, k | 0 <= j && k == j + 1 && k < |rs| ensures Differ(rs[j], rs[k], space) {
      if j > 0 { assert Differ(runs[j - 1], runs[k - 1], space); }
    }
  }

  lemma EmptyRuns(runs: seq<seq<Line>>)
    requires Concat(runs) == [] && forall k :: 0 <= k < |runs| ==> runs[k] != []
    ensures runs == []
  {
  }

  lemma StartsWith(runs: seq<seq<Line>>, ls: seq<Line>)
    requires Concat(runs) == ls != [] && forall k :: 0 <= k < |runs| ==> runs[k] != []
    ensures runs != [] && runs[0][0] == ls[0]
  {
  }

  lemma BlockIsPart(l: Line, run: seq<Line>, part: seq<Line>, follows: bool, space: char -> bool, limit: int)
    requires run != [] && run[0] == l
    requires part == if Strip(l, space) != "" then Block(l, |run|, space, limit) else if follows then [""] else []
    ensures PartOf(run, part, !follows, space, limit)
  {
    hide Strip, Marker, Notes;
    MarkerNotes(|run|);
  }

  lemma PartsMore(run: seq<Line>, part: seq<Line>, runs: seq<seq<Line>>, parts: seq<seq<Line>>, first: bool,
                  space: char -> bool, limit: int)
    requires run != [] && (forall k :: 0 <= k < |runs| ==> runs[k] != []) && PartOf(run, part, first, space, limit)
    requires Parts(runs, parts, false, space, limit)
    ensures Parts([run] + runs, [part] + parts, first, space, limit)
  {
    hide PartOf;
    var rs, ps := [run] + runs, [part] + parts;
    forall k | 0 <= k < |rs| ensures PartOf(rs[k], ps[k], k == 0 && first, space, limit) {
      if k > 0 { assert PartOf(runs[k - 1], parts[k - 1], k - 1 == 0 && false, space, limit); }
    }
  }

  // ----- Length -----

  lemma {:induction false} FoldedShrinks(ls: seq<Line>, follows: bool, space: char -> bool, limit: int)
    requires limit >= 1
    ensures |Folded(ls, follows, space, limit)| <= |ls|
    decreases |ls|
  {
    if ls != [] {
      if Strip(ls[0], space) == "" {
        FoldedShrinks(ls[1..], follows && false, space, limit);
      } else {
        FoldedShrinks(ls[Run(ls, Strip(ls[0], space), space)..], true, space, limit);
      }
    }
  }

  ghost predicate NeverGrows(space: char -> bool, limit: int) {
    forall ls, follows :: |Folded(ls, follows, space, limit)| <= |ls|
  }

  /** The text never gets longer exactly when at least one copy of a line may stand
      on its own; otherwise a single visible line already gains a marker. */
  lemma NeverGrowsExactlyWhen(space: char -> bool, limit: int)
    requires Ordinary(space)
    ensures NeverGrows(space, limit) <==> limit >= 1
  {
    if limit >= 1 {
      forall ls, follows
        ensures |Folded(ls, follows, space, limit)| <= |ls|
      {
        FoldedShrinks(ls, follows, space, limit);
      }
    } else {
      var ls := ["/"];
      Stable("/", space);
      OneLineGrows("/", space, limit);
      assert |Folded(ls, false, space, limit)| > |ls|;
    }
  }

  lemma OneLineGrows(l: Line, space: char -> bool, limit: int)
    requires Strip(l, space) != "" && limit <= 0
    ensures Folded([l], false, space, limit) == [Strip(l, space), Marker(1)]
  {
    hide Strip, Marker;
    assert Run([l], Strip(l, space), space) == 1;
    assert [l][1..] == [];
  }

  ghost predicate Idempotent(space: char -> bool, limit: int) {
    forall ls :: MarkerFree(ls, space) ==>
      Folded(Folded(ls, false, space, limit), false, space, limit) == Folded(ls, false, space, limit)
  }

  /** Folding is idempotent on texts without markers under the same condition. */
  lemma IdempotentExactlyWhen(space: char -> bool, limit: int)
    requires Ordinary(space)
    ensures Idempotent(space, limit) <==> limit >= 1
  {
    if limit >= 1 {
      forall ls | MarkerFree(ls, space)
        ensures Folded(Folded(ls, false, space, limit), false, space, limit) == Folded(ls, false, space, limit)
      {
        FoldedTwice(ls, false, space, limit);
      }
    } else {
      Stable("/", space);
      OneLineGrows("/", space, limit);
      var out := ["/", Marker(1)];
      TwiceGrows("/", Marker(1), space, limit);
      SlashIsNoMarker(space);
      assert MarkerFree(["/"], space);
    }
  }

  lemma SlashIsNoMarker(space: char -> bool)
    ensures !IsMarker("/")
  {
    forall n: nat ensures !MarkerOf("/", n) {
      if n >= 1 { assert |Marker(n)| > 1; }
    }
  }

  lemma TwiceGrows(l: Line, m: Line, space: char -> bool, limit: int)
    requires limit <= 0 && Strip(l, space) != "" && Strip(m, space) != "" && Strip(m, space) != Strip(l, space)
    ensures Folded([l, m], false, space, limit) != [l, m]
  {
    hide Strip, Marker;
    assert [l, m][1..] == [m] && Run([l, m], Strip(l, space), space) == 1;
    assert Run([m], Strip(m, space), space) == 1;
  }

  // ----- The program -----

  /** Does the text so far end in a line that is not blank? */
  predicate EndsVisible(ls: seq<Line>, space: char -> bool) {
    ls != [] && Strip(ls[|ls| - 1], space) != ""
  }

  method Deduplicate(lines: seq<Line>, space: char -> bool, maxAdjacent: int) returns (result: seq<Line>)
    requires Ordinary(space)
    ensures result == Folded(lines, false, space, maxAdjacent)
    ensures exists runs, parts ::
      Runs(lines, runs, space) && Parts(runs, parts, true, space, maxAdjacent) && result == Concat(parts)
    ensures maxAdjacent >= 1 ==> |result| <= |lines|
    ensures MarkerFree(lines, space) ==> Expand(result, space) == Normal(lines, false, space)
    ensures MarkerFree(lines, space) && maxAdjacent >= 1 ==> Folded(result, false, space, maxAdjacent) == result
  {
    hide Strip, Marker, Block, IsMarker, MarkerFree, Folded, Runs, Parts, Concat;
    ghost var _, _ := FoldsRunByRun(lines, false, space, maxAdjacent);
    result := [];
    var i := 0;
    while i < |lines|
      invariant 0 <= i <= |lines|
      invariant Folded(lines, false, space, maxAdjacent) == result +
        Folded(lines[i..], EndsVisible(result, space), space, maxAdjacent)
      decreases |lines| - i
    {
      var line := lines[i];
      var stripped := Strip(line, space);
      if stripped == "" {
        UnfoldBlank(lines, i, EndsVisible(result, space), space, maxAdjacent);
        if result != [] && Strip(result[|result| - 1], space) != "" {
          EmptyIsNoMarker(space);
          Regroup(result, [""], Folded(lines[i + 1..], false, space, maxAdjacent));
          result := result + [""];
        }
        i := i + 1;
      } else {
        var j := i + 1;
        while j < |lines| && Strip(lines[j], space) == stripped
          invariant i + 1 <= j <= |lines|
          invariant forall k :: i <= k < j ==> Strip(lines[k], space) == stripped
          decreases |lines| - j
        {
          j := j + 1;
        }
        var count := j - i;
        RunIs(lines[i..], stripped, count, space);
        UnfoldRun(lines, i, count, EndsVisible(result, space), space, maxAdjacent);
        BlockEnds(line, count, space, maxAdjacent);
        Regroup(result, Block(line, count, space, maxAdjacent), Folded(lines[j..], true, space, maxAdjacent));
        if count > maxAdjacent {
          result := result + [stripped, Marker(count)];
        } else {
          result := result + Copies(line, count);
        }
        i := j;
      }
    }
    assert Folded([], EndsVisible(result, space), space, maxAdjacent) == [] by {
      FoldNothing(EndsVisible(result, space), space, maxAdjacent);
    }
    assert lines[0..] == lines && lines[|lines|..] == [];
    if maxAdjacent >= 1 { FoldedShrinks(lines, false, space, maxAdjacent); }
    if MarkerFree(lines, space) {
      ExpandInvertsFolded(lines, false, space, maxAdjacent);
      if maxAdjacent >= 1 { FoldedTwice(lines, false, space, maxAdjacent); }
    }
  }

  lemma Regroup<T>(a: seq<T>, b: seq<T>, c: seq<T>)
    ensures a + (b + c) == (a + b) + c
  {
  }

  lemma FoldNothing(follows: bool, space: char -> bool, limit: int)
    ensures Folded([], follows, space, limit) == []
  {
  }

  lemma {:induction false} RunIs(ls: seq<Line>, s: string, n: nat, space: char -> bool)
    requires n <= |ls| && (forall k :: 0 <= k < n ==> Strip(ls[k], space) == s)
    requires (n < |ls| ==> Strip(ls[n], space) != s)
    ensures Run(ls, s, space) == n
  {
    hide Strip;
    if n > 0 { RunIs(ls[1..], s, n - 1, space); }
  }

  lemma UnfoldBlank(lines: seq<Line>, i: nat, follows: bool, space: char -> bool, limit: int)
    requires i < |lines| && Strip(lines[i], space) == ""
    ensures Folded(lines[i..], follows, space, limit) ==
      if follows then [""] + Folded(lines[i + 1..], false, space, limit)
        else Folded(lines[i + 1..], follows, space, limit)
  {
    hide Strip;
    assert lines[i..][1..] == lines[i + 1..];
  }

  lemma UnfoldRun(lines: seq<Line>, i: nat, n: nat, follows: bool, space: char -> bool, limit: int)
    requires i < |lines| && Strip(lines[i], space) != "" && 1 <= n == Run(lines[i..], Strip(lines[i], space), space)
    requires i + n <= |lines|
    ensures Folded(lines[i..], follows, space, limit) == Block(lines[i], n, space, limit) +
      Folded(lines[i + n..], true, space, limit)
  {
    hide Strip, Block;
    assert lines[i..][n..] == lines[i + n..];
  }

  lemma BlockEnds(l: Line, n: nat, space: char -> bool, limit: int)
    requires n >= 1 && Strip(l, space) != "" && Ordinary(space)
    ensures EndsVisible(Block(l, n, space, limit), space)
    ensures Block(l, n, space, limit) == if n > limit then [Strip(l, space), Marker(n)] else Copies(l, n)
  {
    hide Strip, Marker;
    MarkerStable(n, space);
  }
}
