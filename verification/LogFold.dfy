/** Folding of passing test results, filter/core/log_template.py, on lines.  The
    regular expressions are arbitrary functions of one or two lines. */
module LogFold {
  import opened Wrappers
  import opened TextLines

  type Line = string

  datatype Outcome = Pass | Fail | Skip

  datatype Dialect = Unittest | Pytest

  /** pytest and single-line unittest results; header lines; and the two ways a
      header joined with the next line can be a result. */
  datatype Patterns = Patterns(pytest: Line -> Option<Outcome>, unittest: Line -> Option<Outcome>,
                               header: Line -> bool, joined: (Line, Line) -> Option<Outcome>,
                               trailer: Line -> Option<Outcome>)

  /** One or two lines read as a test result, or one line that is none. */
  datatype Unit = Unit(lines: seq<Line>, verdict: Option<Outcome>, dialect: Dialect)

  function UnitAt(p: Patterns, ls: seq<Line>): (u: Unit)
    requires ls != []
    ensures 1 <= |u.lines| <= |ls| && u.lines == ls[..|u.lines|]
  {
    var two := |ls| > 1 && p.header(ls[0]);
    if p.pytest(ls[0]).Some? then Unit(ls[..1], p.pytest(ls[0]), Pytest)
    else if p.unittest(ls[0]).Some? then Unit(ls[..1], p.unittest(ls[0]), Unittest)
    else if two && p.joined(ls[0], ls[1]).Some? then Unit(ls[..2], p.joined(ls[0], ls[1]), Unittest)
    else if two && p.trailer(ls[1]).Some? then Unit(ls[..2], p.trailer(ls[1]), Unittest)
    else Unit(ls[..1], None, Unittest)
  }

  // ----- The readings, line by line -----

  /** The line at i, alone or with the next one, is a test result with outcome o: the
      patterns are tried in this order. */
  ghost predicate ReadsAs(p: Patterns, ls: seq<Line>, i: int, o: Outcome) {
    0 <= i < |ls| &&
    if p.pytest(ls[i]).Some? then p.pytest(ls[i]) == Some(o)
    else if p.unittest(ls[i]).Some? then p.unittest(ls[i]) == Some(o)
    else ReadsAsPair(p, ls, i, o)
  }

  ghost predicate ReadsAsPair(p: Patterns, ls: seq<Line>, i: int, o: Outcome) {
    0 <= i && i + 1 < |ls| && p.header(ls[i]) &&
    if p.joined(ls[i], ls[i + 1]).Some? then p.joined(ls[i], ls[i + 1]) == Some(o)
    else p.trailer(ls[i + 1]) == Some(o)
  }

  /** Two lines from i on are one result. */
  ghost predicate PairAt(p: Patterns, ls: seq<Line>, i: int) {
    && 0 <= i < |ls| && p.pytest(ls[i]).None? && p.unittest(ls[i]).None?
    && exists o :: ReadsAsPair(p, ls, i, o)
  }

  /** The line at i belongs to the result that starts one line above. */
  ghost predicate SecondAt(p: Patterns, ls: seq<Line>, i: int)
    decreases i
  {
    i > 0 && PairAt(p, ls, i - 1) && !SecondAt(p, ls, i - 1)
  }

  /** The positions at which a result with outcome o starts. */
  ghost function Results(p: Patterns, ls: seq<Line>, o: Outcome): set<int> {
    set i | 0 <= i < |ls| && !SecondAt(p, ls, i) && ReadsAs(p, ls, i, o)
  }

  /** The line at i belongs to a passing result. */
  ghost predicate Dropped(p: Patterns, ls: seq<Line>, i: int) {
    i in Results(p, ls, Pass) || (SecondAt(p, ls, i) && i - 1 in Results(p, ls, Pass))
  }

  /** What the line at i comes to: a tick where a passing result starts, and the line
      itself unless it belongs to one. */
  ghost function MarksAt(p: Patterns, ls: seq<Line>, i: int): seq<Mark>
    requires 0 <= i < |ls|
  {
    if i in Results(p, ls, Pass) then [Tick(if p.pytest(ls[i]).Some? then Pytest else Unittest)]
    else if Dropped(p, ls, i) then [] else [Shown(ls[i])]
  }

  /** The text from line i on with each passing result reduced to a tick. */
  ghost function Marks(p: Patterns, ls: seq<Line>, i: int): seq<Mark>
    requires 0 <= i
    decreases |ls| - i
  {
    if i >= |ls| then [] else MarksAt(p, ls, i) + Marks(p, ls, i + 1)
  }

  predicate Passes(u: Unit) {
    u.verdict == Some(Pass)
  }

  /** The input read from the front, unit by unit. */
  function Units(p: Patterns, ls: seq<Line>): seq<Unit>
    decreases |ls|
  {
    if ls == [] then [] else var u := UnitAt(p, ls); [u] + Units(p, ls[|u.lines|..])
  }

  // ----- What folding means -----

  /** Output before it is text: a line, or a marker for some passing results. */
  datatype Out = Text(line: Line) | Marker(count: nat, dialect: Dialect)

  /** A single passing result without its text, or a line. */
  datatype Mark = Tick(dialect: Dialect) | Shown(line: Line)

  function Lines(ls: seq<Line>): (os: seq<Out>)
    ensures |os| == |ls|
  {
    seq(|ls|, i requires 0 <= i < |ls| => Text(ls[i]))
  }

  function Flush(run: nat, d: Dialect): seq<Out> {
    if run > 0 then [Marker(run, d)] else []
  }

  function Fold(us: seq<Unit>, run: nat, d: Dialect): seq<Out> {
    if us == [] then Flush(run, d)
    else if Passes(us[0]) then Fold(us[1..], run + 1, us[0].dialect)
    else Flush(run, d) + Lines(us[0].lines) + Fold(us[1..], 0, Unittest)
  }

  /** The input with each passing result reduced to a tick. */
  function Skeleton(us: seq<Unit>): seq<Mark> {
    if us == [] then [] else
    (if Passes(us[0]) then [Tick(us[0].dialect)] else ShowAll(us[0].lines)) + Skeleton(us[1..])
  }

  function ShowAll(ls: seq<Line>): seq<Mark> {
    seq(|ls|, i requires 0 <= i < |ls| => Shown(ls[i]))
  }

  /** A line stands for itself, and a marker for as many ticks as it says, the last of
      which has its dialect. */
  ghost predicate Stands(o: Out, ms: seq<Mark>) {
    match o
    case Text(l) => ms == [Shown(l)]
    case Marker(n, d) => |ms| == n > 0 && (forall m :: m in ms ==> m.Tick?) && ms[n - 1] == Tick(d)
  }

  function Size(o: Out): nat {
    if o.Text? then 1 else o.count
  }

  ghost predicate StandsFor(os: seq<Out>, ms: seq<Mark>) {
    if os == [] then ms == []
    else Size(os[0]) <= |ms| && Stands(os[0], ms[..Size(os[0])]) && StandsFor(os[1..], ms[Size(os[0])..])
  }

  /** The lines of everything that is not a passing result, in order. */
  function Kept(us: seq<Unit>): seq<Line> {
    if us == [] then [] else (if Passes(us[0]) then [] else us[0].lines) + Kept(us[1..])
  }

  function WithoutMarkers(os: seq<Out>): seq<Line> {
    if os == [] then [] else (if os[0].Text? then [os[0].line] else []) + WithoutMarkers(os[1..])
  }

  function MarkedTests(os: seq<Out>): nat {
    if os == [] then 0 else (if os[0].Marker? then os[0].count else 0) + MarkedTests(os[1..])
  }

  function Count(us: seq<Unit>, o: Outcome): nat {
    if us == [] then 0 else (if us[0].verdict == Some(o) then 1 else 0) + Count(us[1..], o)
  }

  function Width(us: seq<Unit>): nat {
    if us == [] then 0 else |us[0].lines| + Width(us[1..])
  }

  // ----- Theorems -----

  lemma {:induction false} StandsConcat(a: seq<Out>, ma: seq<Mark>, b: seq<Out>, mb: seq<Mark>)
    requires StandsFor(a, ma) && StandsFor(b, mb)
    ensures StandsFor(a + b, ma + mb)
  {
    hide Stands;
    if a == [] {
      assert a + b == b && ma + mb == mb;
    } else {
      var n := Size(a[0]);
      StandsConcat(a[1..], ma[n..], b, mb);
      assert (a + b)[1..] == a[1..] + b && (ma + mb)[n..] == ma[n..] + mb && (ma + mb)[..n] == ma[..n];
    }
  }

  lemma {:induction false} StandLines(ls: seq<Line>)
    ensures StandsFor(Lines(ls), ShowAll(ls))
  {
    if ls != [] {
      StandLines(ls[1..]);
      assert Lines(ls)[1..] == Lines(ls[1..]) && ShowAll(ls)[1..] == ShowAll(ls[1..]);
      assert ShowAll(ls)[..1] == [Shown(ls[0])];
    }
  }

  /** The ticks of a run that is not folded yet. */
  ghost predicate RunOf(ms: seq<Mark>, run: nat, d: Dialect) {
    |ms| == run && (forall m :: m in ms ==> m.Tick?) && (run > 0 ==> ms[run - 1] == Tick(d))
  }

  lemma StandFlush(ms: seq<Mark>, run: nat, d: Dialect)
    requires RunOf(ms, run, d)
    ensures StandsFor(Flush(run, d), ms)
  {
    if run > 0 { assert ms[..run] == ms && ms[run..] == [] && Flush(run, d)[1..] == []; }
  }

  /** Only the text of passing results is lost: the output is the input with every
      passing result reduced to a tick, and runs of ticks written as markers. */
  lemma {:induction false} OnlyPassingTextIsLost(us: seq<Unit>, ms: seq<Mark>, run: nat, d: Dialect)
    requires RunOf(ms, run, d)
    ensures StandsFor(Fold(us, run, d), ms + Skeleton(us))
  {
    hide StandsFor, Flush, ShowAll, Lines;
    StandFlush(ms, run, d);
    if us == [] {
      assert ms + Skeleton(us) == ms;
    } else if Passes(us[0]) {
      var t := [Tick(us[0].dialect)];
      OnlyPassingTextIsLost(us[1..], ms + t, run + 1, us[0].dialect);
      assert (ms + t) + Skeleton(us[1..]) == ms + (t + Skeleton(us[1..]));
    } else {
      OnlyPassingTextIsLost(us[1..], [], 0, Unittest);
      StandLines(us[0].lines);
      StandsConcat(Flush(run, d), ms, Lines(us[0].lines), ShowAll(us[0].lines));
      StandsConcat(Flush(run, d) + Lines(us[0].lines), ms + ShowAll(us[0].lines), Fold(us[1..], 0, Unittest),
        [] + Skeleton(us[1..]));
      assert (ms + ShowAll(us[0].lines)) + ([] + Skeleton(us[1..])) == ms + (ShowAll(us[0].lines) + Skeleton(us[1..]));
    }
  }

  // ----- Units and lines -----

  /** u is what the patterns make of line i, and of the next if both are one result. */
  ghost predicate IsReading(p: Patterns, ls: seq<Line>, i: nat, u: Unit) {
    && i + |u.lines| <= |ls| && u.lines == ls[i..i + |u.lines|] && |u.lines| == (if PairAt(p, ls, i) then 2 else 1)
    && (forall o :: u.verdict == Some(o) <==> ReadsAs(p, ls, i, o))
    && (u.verdict.Some? ==> u.dialect == if p.pytest(ls[i]).Some? then Pytest else Unittest)
  }

  lemma UnitIsRead(p: Patterns, ls: seq<Line>, i: nat)
    requires i < |ls|
    ensures IsReading(p, ls, i, UnitAt(p, ls[i..]))
  {
    var t := ls[i..];
    assert t[0] == ls[i] && (|t| > 1 ==> t[1] == ls[i + 1]);
    assert PairAt(p, ls, i) <==> |UnitAt(p, t).lines| == 2 by { PairIs(p, ls, i); }
  }

  /** A unit that starts at line i, which belongs to none above. */
  lemma UnitIsReading(p: Patterns, ls: seq<Line>, i: nat)
    requires i < |ls| && !SecondAt(p, ls, i)
    ensures var u := UnitAt(p, ls[i..]);
      && IsReading(p, ls, i, u) && !SecondAt(p, ls, i + |u.lines|)
      && (|u.lines| == 2 ==> SecondAt(p, ls, i + 1) && u.verdict.Some?)
  {
    hide UnitAt;
    UnitIsRead(p, ls, i);
    assert PairAt(p, ls, i) ==> SecondAt(p, ls, i + 1);
    assert UnitAt(p, ls[i..]).verdict.None? ==> !PairAt(p, ls, i);
  }

  lemma PairIs(p: Patterns, ls: seq<Line>, i: nat)
    requires i < |ls|
    ensures PairAt(p, ls, i) <==>
      && i + 1 < |ls| && p.pytest(ls[i]).None? && p.unittest(ls[i]).None? && p.header(ls[i])
      && (p.joined(ls[i], ls[i + 1]).Some? || p.trailer(ls[i + 1]).Some?)
  {
    if i + 1 < |ls| && p.header(ls[i]) {
      if p.joined(ls[i], ls[i + 1]).Some? {
        assert ReadsAsPair(p, ls, i, p.joined(ls[i], ls[i + 1]).value);
      } else if p.trailer(ls[i + 1]).Some? {
        assert ReadsAsPair(p, ls, i, p.trailer(ls[i + 1]).value);
      }
    }
  }

  /** The units from line i on are the readings from there on. */
  lemma {:induction false} UnitsAreReadings(p: Patterns, ls: seq<Line>, i: nat)
    requires i <= |ls| && !SecondAt(p, ls, i)
    ensures Skeleton(Units(p, ls[i..])) == Marks(p, ls, i)
    ensures forall o :: Count(Units(p, ls[i..]), o) == |ResultsFrom(p, ls, o, i)|
    decreases |ls| - i
  {
    hide UnitAt, SecondAt, PairAt, ReadsAs;
    if i < |ls| {
      var u := UnitAt(p, ls[i..]);
      var j := i + |u.lines|;
      UnitIsReading(p, ls, i);
      UnitsAreReadings(p, ls, j);
      assert ls[i..][|u.lines|..] == ls[j..];
      assert Units(p, ls[i..])[1..] == Units(p, ls[j..]);
      UnitMarks(p, ls, i);
      forall o ensures Count(Units(p, ls[i..]), o) == |ResultsFrom(p, ls, o, i)| { UnitResults(p, ls, o, i); }
    } else {
      forall o ensures ResultsFrom(p, ls, o, i) == {} {
      }
    }
  }

  ghost function ResultsFrom(p: Patterns, ls: seq<Line>, o: Outcome, i: int): set<int> {
    set k | k in Results(p, ls, o) && k >= i
  }

  lemma UnitMarks(p: Patterns, ls: seq<Line>, i: nat)
    requires i < |ls| && !SecondAt(p, ls, i)
    ensures var u := UnitAt(p, ls[i..]);
      i + |u.lines| <= |ls| &&
      Marks(p, ls, i) ==
        (if Passes(u) then [Tick(u.dialect)] else ShowAll(u.lines)) + Marks(p, ls, i + |u.lines|)
  {
    hide UnitAt, SecondAt, PairAt, ReadsAs;
    UnitIsReading(p, ls, i);
    var u := UnitAt(p, ls[i..]);
    assert Passes(u) <==> i in Results(p, ls, Pass);
    if |u.lines| == 2 {
      assert Marks(p, ls, i + 1) == MarksAt(p, ls, i + 1) + Marks(p, ls, i + 2);
      assert i + 1 !in Results(p, ls, Pass);
      assert MarksAt(p, ls, i) + (MarksAt(p, ls, i + 1) + Marks(p, ls, i + 2)) ==
        (MarksAt(p, ls, i) + MarksAt(p, ls, i + 1)) + Marks(p, ls, i + 2);
    }
  }

  lemma UnitResults(p: Patterns, ls: seq<Line>, o: Outcome, i: nat)
    requires i < |ls| && !SecondAt(p, ls, i)
    ensures var u := UnitAt(p, ls[i..]);
      |ResultsFrom(p, ls, o, i)| ==
        (if u.verdict == Some(o) then 1 else 0) + |ResultsFrom(p, ls, o, i + |u.lines|)|
  {
    hide UnitAt, SecondAt, PairAt, ReadsAs, ResultsFrom;
    UnitIsReading(p, ls, i);
    var u := UnitAt(p, ls[i..]);
    assert u.verdict == Some(o) <==> i in Results(p, ls, o);
    FromNext(p, ls, o, i);
    if |u.lines| == 2 {
      assert i + 1 !in Results(p, ls, o);
      FromNext(p, ls, o, i + 1);
    }
  }

  lemma FromNext(p: Patterns, ls: seq<Line>, o: Outcome, i: nat)
    ensures |ResultsFrom(p, ls, o, i)| == (if i in Results(p, ls, o) then 1 else 0) + |ResultsFrom(p, ls, o, i + 1)|
  {
    hide Results;
    var rest := ResultsFrom(p, ls, o, i + 1);
    assert i !in rest && ResultsFrom(p, ls, o, i) == rest + if i in Results(p, ls, o) then {i} else {};
  }

  /** The lines that survive are those that belong to no passing result. */
  lemma {:induction false} KeptAreShown(us: seq<Unit>)
    ensures forall l :: l in Kept(us) <==> Shown(l) in Skeleton(us)
  {
    if us != [] {
      KeptAreShown(us[1..]);
      ShowAllShows(us[0].lines);
    }
  }

  lemma ShowAllShows(ls: seq<Line>)
    ensures forall l :: l in ls <==> Shown(l) in ShowAll(ls)
  {
    forall l | l in ls ensures Shown(l) in ShowAll(ls) {
      var i :| 0 <= i < |ls| && ls[i] == l;
      assert ShowAll(ls)[i] == Shown(l);
    }
  }

  lemma NotDropped(p: Patterns, ls: seq<Line>, i: nat)
    requires i < |ls| && !Dropped(p, ls, i)
    ensures MarksAt(p, ls, i) == [Shown(ls[i])]
  {
    hide Results;
  }

  lemma {:induction false} ShownIsMarked(p: Patterns, ls: seq<Line>, i: nat, k: nat)
    requires k <= i < |ls| && !Dropped(p, ls, i)
    ensures Shown(ls[i]) in Marks(p, ls, k)
    decreases i - k
  {
    hide Dropped, Results;
    if k < i { ShownIsMarked(p, ls, i, k + 1); } else { NotDropped(p, ls, i); }
  }

  lemma {:induction false} WithoutMarkersConcat(a: seq<Out>, b: seq<Out>)
    ensures WithoutMarkers(a + b) == WithoutMarkers(a) + WithoutMarkers(b)
    ensures MarkedTests(a + b) == MarkedTests(a) + MarkedTests(b)
  {
    if a == [] {
      assert a + b == b;
    } else {
      var ab := a + b;
      assert ab[1..] == a[1..] + b && ab[0] == a[0];
      WithoutMarkersConcat(a[1..], b);
      var x := if a[0].Text? then [a[0].line] else [];
      assert WithoutMarkers(ab) == x + WithoutMarkers(ab[1..]) && WithoutMarkers(a) == x + WithoutMarkers(a[1..]);
      hide WithoutMarkers;
      assert x + (WithoutMarkers(a[1..]) + WithoutMarkers(b)) == x + WithoutMarkers(a[1..]) + WithoutMarkers(b);
    }
  }

  lemma {:induction false} WithoutMarkersLines(ls: seq<Line>)
    ensures WithoutMarkers(Lines(ls)) == ls && MarkedTests(Lines(ls)) == 0
  {
    if ls != [] {
      assert Lines(ls)[1..] == Lines(ls[1..]);
      WithoutMarkersLines(ls[1..]);
    }
  }

  lemma FlushMarks(run: nat, d: Dialect)
    ensures WithoutMarkers(Flush(run, d)) == [] && MarkedTests(Flush(run, d)) == run
  {
    if run > 0 { assert Flush(run, d)[1..] == []; }
  }

  /** Without its markers the output is the input without its passing results; and
      the markers together count exactly those. */
  lemma {:induction false} MarkersCountPassed(us: seq<Unit>, run: nat, d: Dialect)
    ensures WithoutMarkers(Fold(us, run, d)) == Kept(us)
    ensures MarkedTests(Fold(us, run, d)) == run + Count(us, Pass)
  {
    hide WithoutMarkers, MarkedTests;
    FlushMarks(run, d);
    if us != [] {
      if Passes(us[0]) {
        MarkersCountPassed(us[1..], run + 1, us[0].dialect);
      } else {
        MarkersCountPassed(us[1..], 0, Unittest);
        WithoutMarkersLines(us[0].lines);
        WithoutMarkersConcat(Flush(run, d) + Lines(us[0].lines), Fold(us[1..], 0, Unittest));
        WithoutMarkersConcat(Flush(run, d), Lines(us[0].lines));
      }
    }
  }

  /** Two markers never stand next to each other, so runs are folded as far as possible. */
  ghost predicate Separated(os: seq<Out>) {
    forall i :: 0 <= i < |os| - 1 ==> os[i].Text? || os[i + 1].Text?
  }

  lemma {:induction false} MarkersAreSeparated(us: seq<Unit>, run: nat, d: Dialect)
    requires forall u :: u in us ==> u.lines != []
    ensures var os := Fold(us, run, d); Separated(os) && forall o :: o in os && o.Marker? ==> o.count > 0
  {
    if us != [] {
      if Passes(us[0]) {
        MarkersAreSeparated(us[1..], run + 1, us[0].dialect);
      } else {
        MarkersAreSeparated(us[1..], 0, Unittest);
        var a, b, c := Flush(run, d), Lines(us[0].lines), Fold(us[1..], 0, Unittest);
        assert us[0] in us && b[|b| - 1].Text?;
      }
    }
  }

  lemma {:induction false} FoldShrinks(us: seq<Unit>, run: nat, d: Dialect)
    requires forall u :: u in us ==> u.lines != []
    ensures |Fold(us, run, d)| <= Width(us) + if run > 0 then 1 else 0
    ensures |Fold(us, run, d)| >= |Kept(us)|
  {
    if us != [] {
      assert us[0] in us;
      if Passes(us[0]) { FoldShrinks(us[1..], run + 1, us[0].dialect); } else { FoldShrinks(us[1..], 0, Unittest); }
    }
  }

  lemma {:induction false} UnitsCover(p: Patterns, ls: seq<Line>)
    ensures Width(Units(p, ls)) == |ls| && forall u :: u in Units(p, ls) ==> u.lines != []
    decreases |ls|
  {
    if ls != [] {
      var u := UnitAt(p, ls);
      UnitsCover(p, ls[|u.lines|..]);
      assert Units(p, ls)[1..] == Units(p, ls[|u.lines|..]);
    }
  }

  /** A line survives unless it belongs to a passing result. */
  lemma OthersSurvive(p: Patterns, ls: seq<Line>, i: nat)
    requires i < |ls| && !Dropped(p, ls, i)
    ensures ls[i] in Kept(Units(p, ls))
  {
    hide UnitAt, Dropped, Marks, ResultsFrom, Units;
    assert ls[0..] == ls;
    UnitsAreReadings(p, ls, 0);
    ShownIsMarked(p, ls, i, 0);
    KeptAreShown(Units(p, ls));
  }

  /** A line that pytest reads as failing or skipped survives, and so does one that only
      the single-line unittest pattern reads, and one that no pattern reads, alone or with
      the next; unless it is the second line of a passing result that starts above it. */
  lemma FailuresSurvive(p: Patterns, ls: seq<Line>, i: nat)
    requires i < |ls| && (SecondAt(p, ls, i) ==> i - 1 !in Results(p, ls, Pass))
    requires
      || p.pytest(ls[i]) == Some(Fail) || p.pytest(ls[i]) == Some(Skip)
      || (p.pytest(ls[i]).None? && (p.unittest(ls[i]) == Some(Fail) || p.unittest(ls[i]) == Some(Skip)))
      || (p.pytest(ls[i]).None? && p.unittest(ls[i]).None? && !p.header(ls[i]))
      || (p.pytest(ls[i]).None? && p.unittest(ls[i]).None? && i + 1 < |ls| &&
          p.joined(ls[i], ls[i + 1]) != Some(Pass) && p.trailer(ls[i + 1]) != Some(Pass))
    ensures ls[i] in Kept(Units(p, ls))
  {
    hide SecondAt, UnitAt, Kept;
    OthersSurvive(p, ls, i);
  }

  ghost function LinesRead(p: Patterns, ls: seq<Line>, o: Outcome): set<int> {
    set i | 0 <= i < |ls| && (p.pytest(ls[i]) == Some(o) || (p.pytest(ls[i]).None? && p.unittest(ls[i]) == Some(o)))
  }

  /** Without header lines the counts are the numbers of lines read that way. */
  lemma CountsWithoutHeaders(p: Patterns, ls: seq<Line>, o: Outcome)
    requires forall l :: l in ls ==> !p.header(l)
    ensures Count(Units(p, ls), o) == |LinesRead(p, ls, o)|
  {
    hide UnitAt, Units;
    assert ls[0..] == ls;
    UnitsAreReadings(p, ls, 0);
    forall i ensures i in ResultsFrom(p, ls, o, 0) <==> i in LinesRead(p, ls, o) {
      assert 0 <= i - 1 < |ls| ==> ls[i - 1] in ls;
      assert 0 <= i < |ls| ==> ls[i] in ls;
    }
    assert ResultsFrom(p, ls, o, 0) == LinesRead(p, ls, o);
  }

  /** Without passing results nothing changes. */
  lemma {:induction false} NothingToFold(p: Patterns, ls: seq<Line>)
    requires Count(Units(p, ls), Pass) == 0
    ensures Fold(Units(p, ls), 0, Unittest) == Lines(ls)
    decreases |ls|
  {
    hide Lines, UnitAt;
    if ls != [] {
      var u := UnitAt(p, ls);
      var rest := ls[|u.lines|..];
      assert Units(p, ls)[1..] == Units(p, rest);
      NothingToFold(p, rest);
      assert ls == u.lines + rest;
      LinesConcat(u.lines, rest);
    }
  }

  lemma LinesConcat(a: seq<Line>, b: seq<Line>)
    ensures Lines(a + b) == Lines(a) + Lines(b)
  {
  }

  // ----- Markers as text -----

  function Label(d: Dialect): string {
    match d case Unittest => " ok test(s) folded ..." case Pytest => " passed test(s) folded ..."
  }

  const HEAD: string := "// ... "

  function MarkerText(n: nat, d: Dialect): Line {
    HEAD + (Decimal(n) + Label(d))
  }

  function Render(o: Out): Line {
    match o case Text(l) => l case Marker(n, d) => MarkerText(n, d)
  }

  function RenderAll(os: seq<Out>): (ls: seq<Line>)
    ensures |ls| == |os|
  {
    seq(|os|, i requires 0 <= i < |os| => Render(os[i]))
  }

  ghost predicate IsMarker(l: Line) {
    exists n: nat, d: Dialect {:trigger MarkerText(n, d)} :: l == MarkerText(n, d)
  }

  /** The count can be read back from the text of a marker. */
  lemma MarkerTextInjective(m: nat, d: Dialect, n: nat, e: Dialect)
    requires MarkerText(m, d) == MarkerText(n, e)
    ensures m == n && d == e
  {
    hide Decimal;
    SameTail(HEAD, Decimal(m) + Label(d), Decimal(n) + Label(e));
    DigitsEnd(Decimal(m), Decimal(n), Label(d), Label(e));
    DecimalInjective(m, n);
    assert Label(d)[1] == Label(e)[1];
  }

  /** A line as it is, or "// ... n passed test(s) folded ..." for pytest and the same with
      "ok" for unittest. */
  ghost predicate PrintedAs(o: Out, l: Line) {
    match o
    case Text(line) => l == line
    case Marker(n, d) =>
      exists digits :: IsDecimal(digits, n) && l ==
        "// ... " + digits + if d == Pytest then " passed test(s) folded ..." else " ok test(s) folded ..."
  }

  ghost predicate Printed(os: seq<Out>, ls: seq<Line>) {
    |ls| == |os| && forall k :: 0 <= k < |os| ==> PrintedAs(os[k], ls[k])
  }

  lemma RenderPrints(os: seq<Out>)
    ensures Printed(os, RenderAll(os))
  {
    hide IsDecimal, PrintedAs, Render;
    forall k | 0 <= k < |os| ensures PrintedAs(os[k], RenderAll(os)[k]) { RenderIs(os[k]); }
  }

  lemma RenderIs(o: Out)
    ensures PrintedAs(o, Render(o))
  {
    hide IsDecimal, Decimal;
    if o.Marker? {
      DecimalReads(o.count);
      var tail := if o.dialect == Pytest then " passed test(s) folded ..." else " ok test(s) folded ...";
      assert Render(o) == "// ... " + Decimal(o.count) + tail;
    }
  }

  ghost function DropMarkers(ls: seq<Line>): seq<Line> {
    if ls == [] then [] else (if IsMarker(ls[0]) then [] else [ls[0]]) + DropMarkers(ls[1..])
  }

  ghost predicate NoMarkers(ls: seq<Line>) {
    forall l :: l in ls ==> !IsMarker(l)
  }

  lemma {:induction false} DropShortens(ls: seq<Line>)
    ensures |DropMarkers(ls)| <= |ls|
  {
    if ls != [] { DropShortens(ls[1..]); }
  }

  /** On the text itself: removing the lines that look like markers gives back the
      input without its passing results exactly when none of the surviving lines
      looks like a marker. */
  lemma {:induction false} DropMarkersExactlyWhen(os: seq<Out>)
    ensures |DropMarkers(RenderAll(os))| <= |WithoutMarkers(os)|
    ensures DropMarkers(RenderAll(os)) == WithoutMarkers(os) <==> NoMarkers(WithoutMarkers(os))
  {
    hide IsMarker, MarkerText;
    if os != [] {
      DropMarkersExactlyWhen(os[1..]);
      assert RenderAll(os)[1..] == RenderAll(os[1..]);
      if os[0].Marker? {
        assert IsMarker(Render(os[0])) by { MarkerIsMarker(os[0].count, os[0].dialect); }
        assert WithoutMarkers(os) == WithoutMarkers(os[1..]);
        assert DropMarkers(RenderAll(os)) == DropMarkers(RenderAll(os[1..]));
      } else {
        var l, rest := os[0].line, WithoutMarkers(os[1..]);
        assert WithoutMarkers(os) == [l] + rest;
        assert NoMarkers([l] + rest) <==> !IsMarker(l) && NoMarkers(rest) by { NoMarkersCons(l, rest); }
        if !IsMarker(l) && DropMarkers(RenderAll(os)) == WithoutMarkers(os) {
          assert ([l] + DropMarkers(RenderAll(os[1..])))[1..] == ([l] + rest)[1..];
        }
      }
    }
  }

  lemma NoMarkersCons(l: Line, rest: seq<Line>)
    ensures NoMarkers([l] + rest) <==> !IsMarker(l) && NoMarkers(rest)
  {
    var ls := [l] + rest;
    assert forall x :: x in ls <==> x == l || x in rest;
  }

  lemma MarkerIsMarker(n: nat, d: Dialect)
    ensures IsMarker(MarkerText(n, d))
  {
  }

  // ----- The program -----

  /** Either the text is handed back as it is, or the folded lines. */
  datatype FoldResult = Unchanged | Folded(lines: seq<Line>, passed: nat, failed: nat, skipped: nat)

  /** Read the result at line i in the order the program tries its patterns. */
  method ReadUnit(p: Patterns, lines: seq<Line>, i: nat) returns (u: Unit)
    requires i < |lines|
    ensures u == UnitAt(p, lines[i..])
    ensures IsReading(p, lines, i, u)
  {
    hide IsReading;
    UnitIsRead(p, lines, i);
    var line := lines[i];
    assert lines[i..][..1] == [line];
    var pt := p.pytest(line);
    if pt.Some? { return Unit([line], pt, Pytest); }
    var ut := p.unittest(line);
    if ut.Some? { return Unit([line], ut, Unittest); }
    if i + 1 < |lines| && p.header(line) {
      assert lines[i..][..2] == [line, lines[i + 1]];
      var joined := p.joined(line, lines[i + 1]);
      if joined.Some? { return Unit([line, lines[i + 1]], joined, Unittest); }
      var trailer := p.trailer(lines[i + 1]);
      if trailer.Some? { return Unit([line, lines[i + 1]], trailer, Unittest); }
    }
    u := Unit([line], None, Unittest);
  }

  method FlushPassRun(out: seq<Line>, run: nat, d: Dialect, ghost os: seq<Out>)
    returns (out': seq<Line>, ghost os': seq<Out>)
    requires out == RenderAll(os)
    ensures os' == os + Flush(run, d) && out' == RenderAll(os')
  {
    out', os' := out, os + Flush(run, d);
    if run > 0 { out' := out' + [MarkerText(run, d)]; }
  }

  /** Failing, skipped and unrecognised lines survive in order; passing ones are
      counted by the markers; a text without any test result is handed back. */
  method FoldTestOutput(p: Patterns, lines: seq<Line>) returns (r: FoldResult)
    ensures var us := Units(p, lines);
      && (r.Unchanged? <==> Count(us, Pass) == 0 && Count(us, Fail) == 0 && Count(us, Skip) == 0)
      && (r.Folded? ==> r == Folded(RenderAll(Fold(us, 0, Unittest)), Count(us, Pass), Count(us, Fail),
        Count(us, Skip)))
      && (r.Folded? ==> |r.lines| <= |lines| && (r.passed == 0 ==> r.lines == lines))
    ensures r.Unchanged? <==> forall o :: Results(p, lines, o) == {}
    ensures r.Folded? ==> FoldedFrom(p, lines, r)
  {
    hide Fold, Units, Count, StandsFor, WithoutMarkers, MarkedTests, Kept, Skeleton, RenderAll, Separated, Render;
    hide UnitAt, Results, FoldedFrom;
    ghost var us := Units(p, lines);
    var out: seq<Line>, passed, failed, skipped := [], 0, 0, 0;
    var run, dialect, i := 0, Unittest, 0;
    ghost var os: seq<Out> := [];
    assert lines[0..] == lines && RenderAll(os) == [];
    while i < |lines|
      invariant 0 <= i <= |lines| && out == RenderAll(os)
      invariant Fold(us, 0, Unittest) == os + Fold(Units(p, lines[i..]), run, dialect)
      invariant Count(us, Pass) == passed + Count(Units(p, lines[i..]), Pass)
      invariant Count(us, Fail) == failed + Count(Units(p, lines[i..]), Fail)
      invariant Count(us, Skip) == skipped + Count(Units(p, lines[i..]), Skip)
      decreases |lines| - i
    {
      UnfoldUnits(p, lines, i, run, dialect);
      var u := ReadUnit(p, lines, i);
      if u.verdict == Some(Pass) {
        run, dialect, passed := run + 1, u.dialect, passed + 1;
      } else {
        ghost var rest := Fold(Units(p, lines[i + |u.lines|..]), 0, Unittest);
        Regroup(os, Flush(run, dialect), Lines(u.lines), rest);
        out, os := FlushPassRun(out, run, dialect, os);
        RenderMore(os, u.lines);
        out, os := out + u.lines, os + Lines(u.lines);
        run, dialect := 0, Unittest;
        if u.verdict == Some(Fail) { failed := failed + 1; }
        else if u.verdict == Some(Skip) { skipped := skipped + 1; }
      }
      i := i + |u.lines|;
    }
    NoUnits(p, lines, run, dialect);
    out, os := FlushPassRun(out, run, dialect, os);
    if passed == 0 && failed == 0 && skipped == 0 {
      r := Unchanged;
    } else {
      r := Folded(out, passed, failed, skipped);
    }
    FoldFacts(p, lines);
    CountsAreResults(p, lines);
  }

  /** Said of lines and patterns alone: the counts are those of the readings; the output is
      the input with every passing result reduced to a tick, and the ticks, in runs as long
      as possible, written as markers; so every other line is in the output. */
  ghost predicate FoldedFrom(p: Patterns, lines: seq<Line>, r: FoldResult)
    requires r.Folded?
  {
    && r.passed == |Results(p, lines, Pass)| && r.failed == |Results(p, lines, Fail)|
    && r.skipped == |Results(p, lines, Skip)|
    && (exists os :: Printed(os, r.lines) && StandsFor(os, Marks(p, lines, 0)) && Separated(os))
    && forall i :: 0 <= i < |lines| && !Dropped(p, lines, i) ==> lines[i] in r.lines
  }

  lemma UnfoldUnits(p: Patterns, lines: seq<Line>, i: nat, run: nat, d: Dialect)
    requires i < |lines|
    ensures var u := UnitAt(p, lines[i..]);
      && i + |u.lines| <= |lines| && |u.lines| > 0
      && (var us, rest := Units(p, lines[i..]), Units(p, lines[i + |u.lines|..]);
          && Fold(us, run, d) == (if Passes(u) then Fold(rest, run + 1, u.dialect)
                                  else Flush(run, d) + Lines(u.lines) + Fold(rest, 0, Unittest))
          && forall o: Outcome :: Count(us, o) == (if u.verdict == Some(o) then 1 else 0) + Count(rest, o))
  {
    hide UnitAt;
    var u := UnitAt(p, lines[i..]);
    assert lines[i..][|u.lines|..] == lines[i + |u.lines|..];
    assert Units(p, lines[i..])[1..] == Units(p, lines[i + |u.lines|..]);
  }

  lemma NoUnits(p: Patterns, lines: seq<Line>, run: nat, d: Dialect)
    ensures Units(p, lines[|lines|..]) == [] && Fold([], run, d) == Flush(run, d)
    ensures forall o: Outcome :: Count([], o) == 0
  {
  }

  lemma Regroup<T>(a: seq<T>, b: seq<T>, c: seq<T>, d: seq<T>)
    ensures a + (b + c + d) == a + b + c + d
  {
  }

  lemma RenderMore(os: seq<Out>, ls: seq<Line>)
    ensures RenderAll(os + Lines(ls)) == RenderAll(os) + ls
  {
  }

  lemma CountsAreResults(p: Patterns, lines: seq<Line>)
    ensures forall o :: Count(Units(p, lines), o) == |Results(p, lines, o)|
    ensures Skeleton(Units(p, lines)) == Marks(p, lines, 0)
    ensures var us := Units(p, lines);
      (forall o :: Results(p, lines, o) == {}) <==> Count(us, Pass) == 0 && Count(us, Fail) == 0 && Count(us, Skip) == 0
  {
    hide UnitAt, Units, Results, Count;
    assert lines[0..] == lines;
    UnitsAreReadings(p, lines, 0);
    forall o ensures ResultsFrom(p, lines, o, 0) == Results(p, lines, o) { ResultsInRange(p, lines, o); }
    forall o ensures Results(p, lines, o) == {} <==> Count(Units(p, lines), o) == 0
      ensures o == Pass || o == Fail || o == Skip
    {
    }
  }

  lemma ResultsInRange(p: Patterns, ls: seq<Line>, o: Outcome)
    ensures forall i :: i in Results(p, ls, o) ==> 0 <= i < |ls|
  {
  }

  lemma {:induction false} KeptIsPrinted(os: seq<Out>, l: Line)
    requires l in WithoutMarkers(os)
    ensures l in RenderAll(os)
  {
    assert RenderAll(os)[0] == Render(os[0]);
    if os[0] != Text(l) {
      KeptIsPrinted(os[1..], l);
      assert RenderAll(os)[1..] == RenderAll(os[1..]);
    }
  }

  lemma FoldFacts(p: Patterns, lines: seq<Line>)
    ensures var us := Units(p, lines); var os := Fold(us, 0, Unittest);
      && |os| <= |lines| && (Count(us, Pass) == 0 ==> RenderAll(os) == lines)
      && FoldedFrom(p, lines, Folded(RenderAll(os), Count(us, Pass), Count(us, Fail), Count(us, Skip)))
  {
    hide StandsFor, WithoutMarkers, MarkedTests, Separated, Units, Fold, Printed, Marks, Dropped, RenderAll, Results;
    var us := Units(p, lines);
    var os := Fold(us, 0, Unittest);
    UnitsCover(p, lines);
    CountsAreResults(p, lines);
    OnlyPassingTextIsLost(us, [], 0, Unittest);
    assert [] + Skeleton(us) == Skeleton(us);
    MarkersCountPassed(us, 0, Unittest);
    MarkersAreSeparated(us, 0, Unittest);
    FoldShrinks(us, 0, Unittest);
    RenderPrints(os);
    forall i | 0 <= i < |lines| && !Dropped(p, lines, i) ensures lines[i] in RenderAll(os) {
      OthersSurvive(p, lines, i);
      KeptIsPrinted(os, lines[i]);
    }
    if Count(us, Pass) == 0 {
      NothingToFold(p, lines);
      RenderMore([], lines);
      assert [] + Lines(lines) == Lines(lines) && RenderAll([]) == [];
    }
  }
}
