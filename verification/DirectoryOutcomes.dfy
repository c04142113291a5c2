/** What the scheduler reports on listings that need not be trees: the statistics, and
    the entries from which each summary is made. */
module DirectoryOutcomes {
  import opened Wrappers
  import opened DirectoryDag
  import opened DirectoryListings

  /** How each directory ended, and how many dispatches failed. */
  datatype Book = Book(results: map<Uri, Option<ChildSummary>>, failures: nat)

  const BLANK: Book := Book(map[], 0)

  function Note(env: Env, b: Book, a: Action): Book {
    match a.task
    case DispatchTask(u, _) => if Listing(env, u).None? then b.(failures := b.failures + 1) else b
    case Generating(u, _) => if a.outcome.Fails? then b.(results := b.results[u := None]) else b
    case Storing(u, _, text) =>
      b.(results := b.results[u := if a.outcome.Succeeds? then Some(ChildSummary(u, text, true)) else None])
    case _ => b
  }

  /** What the run so far has come to. */
  ghost function BookOf(env: Env, acts: seq<Action>): Book {
    if acts == [] then BLANK else Note(env, BookOf(env, acts[..|acts| - 1]), acts[|acts| - 1])
  }

  ghost function Successes(b: Book): set<Uri> {
    set u | u in b.results && b.results[u].Some?
  }

  // ----- Sub-directories that cannot be listed -----

  function Unlistable(env: Env, ds: seq<Uri>): nat {
    if ds == [] then 0 else Unlistable(env, ds[..|ds| - 1]) + if Listing(env, ds[|ds| - 1]).None? then 1 else 0
  }

  ghost function UnlistableSum(env: Env, us: set<Uri>): nat
    decreases |us|
  {
    if us == {} then 0 else
    var u :| u in us;
    Unlistable(env, SubDirs(env, u)) + UnlistableSum(env, us - {u})
  }

  lemma {:induction false} UnlistablePick(env: Env, us: set<Uri>, u: Uri)
    requires u in us
    ensures UnlistableSum(env, us) == Unlistable(env, SubDirs(env, u)) + UnlistableSum(env, us - {u})
    decreases |us|
  {
    hide Unlistable, SubDirs;
    var x :| x in us && UnlistableSum(env, us) == Unlistable(env, SubDirs(env, x)) + UnlistableSum(env, us - {x});
    if x != u {
      UnlistablePick(env, us - {x}, u);
      UnlistablePick(env, us - {u}, x);
      assert us - {x} - {u} == us - {u} - {x};
    }
  }

  /** Dispatches that will fail. */
  ghost function Hopeless(env: Env): Task -> bool {
    (k: Task) => k.DispatchTask? && Listing(env, k.uri).None?
  }

  lemma {:induction false} DispatchesHopeless(env: Env, u: Uri, ds: seq<Uri>)
    ensures Tally(DispatchTasks(u, ds), Hopeless(env)) == Unlistable(env, ds)
  {
    if ds == [] {
      TallyNone(multiset{}, Hopeless(env));
    } else {
      hide Tally, Listing;
      DispatchesHopeless(env, u, ds[..|ds| - 1]);
      TallyAdd(DispatchTasks(u, ds[..|ds| - 1]), Hopeless(env), DispatchTask(ds[|ds| - 1], Some(u)));
    }
  }

  lemma NewHopeless(env: Env, u: Uri)
    ensures Tally(NewTasks(env, u), Hopeless(env)) == Unlistable(env, SubDirs(env, u))
  {
    hide Tally, SubDirs, Files, Listing;
    var ds, fs := SubDirs(env, u), Files(env, u);
    if |ds| + |fs| == 0 {
      SingleTally(Hopeless(env), SummaryTask(u));
    } else {
      DispatchesHopeless(env, u, ds);
      FileTally(u, fs, u);
      TallyNone(FileTasks(u, fs), Hopeless(env));
      TallyUnion(FileTasks(u, fs), DispatchTasks(u, ds), Hopeless(env));
    }
  }

  // ----- The invariant -----

  /** The statistics count registered, unended, successful and failed directories, and
      failed dispatches, of which there will be one for each unlistable entry. */
  ghost predicate StatsOk(env: Env, s: State, b: Book) {
    && b.results.Keys <= s.nodes.Keys
    && s.stats.total == |s.nodes| && s.stats.pending == |s.nodes| - |b.results|
    && s.stats.completed == |Successes(b)| && s.stats.failed == |b.results| - |Successes(b)| + b.failures
  }

  ghost predicate FailuresOk(env: Env, s: State, b: Book) {
    b.failures + Tally(s.tasks, Hopeless(env)) ==
    UnlistableSum(env, s.nodes.Keys) + if Listing(env, env.root).None? then 1 else 0
  }

  ghost predicate ShapeOk(env: Env, s: State, u: Uri) {
    u in s.nodes ==>
      var n, ds := s.nodes[u], SubDirs(env, u);
      n.dirs == ds && n.childIndex == IndexOf(ds) && |n.summaries| == |ds|
  }

  /** A slot is filled by a child that ended, with its result. */
  ghost predicate FilledOk(env: Env, s: State, b: Book, u: Uri, j: nat) {
    u in s.nodes && j < |s.nodes[u].summaries| && s.nodes[u].summaries[j].Some? && j < |SubDirs(env, u)| ==>
      var c := SubDirs(env, u)[j];
      Listing(env, c).Some? && c in b.results && s.nodes[u].summaries[j] == b.results[c]
  }

  /** A child that ended has filled its slot, or its report is on the way. */
  ghost predicate HeardOk(env: Env, s: State, b: Book, u: Uri, c: Uri) {
    IsChildOf(s, c, u) && c in b.results && u in s.nodes && c in IndexOf(SubDirs(env, u)) ==>
      || ChildDoneTask(u, c, b.results[c]) in s.tasks
      || (IndexOf(SubDirs(env, u))[c] < |s.nodes[u].summaries| &&
          s.nodes[u].summaries[IndexOf(SubDirs(env, u))[c]] == b.results[c])
  }

  /** A report carries the result of the child, and none if there was nothing to list. */
  ghost predicate ReportOk(env: Env, b: Book, k: Task) {
    k.ChildDoneTask? ==>
      if Listing(env, k.child).None? then k.summary.None? else k.child in b.results && k.summary == b.results[k.child]
  }

  function EntryOf(b: Book, c: Uri): ChildSummary {
    if c in b.results && b.results[c].Some? then b.results[c].value else Missing(c)
  }

  /** One entry per sub-directory, in order; those that can be listed have all ended. */
  ghost predicate EntriesOk(env: Env, b: Book, u: Uri, entries: seq<ChildSummary>) {
    && |entries| == |SubDirs(env, u)|
    && forall j :: 0 <= j < |entries| ==> EntryOk(env, b, SubDirs(env, u)[j], entries[j])
  }

  ghost predicate EntryOk(env: Env, b: Book, c: Uri, e: ChildSummary) {
    if Listing(env, c).Some? then c in b.results && e == EntryOf(b, c) else e == Missing(c)
  }

  ghost predicate CollectedOk(env: Env, b: Book, k: Task) {
    k.AwaitSlot? || k.Generating? || k.Storing? ==> EntriesOk(env, b, k.uri, k.collected)
  }

  ghost predicate OutInv(env: Env, s: State, g: Trace, b: Book) {
    && b.results.Keys == g.ended && StatsOk(env, s, b) && FailuresOk(env, s, b)
    && (forall u :: ShapeOk(env, s, u))
    && (forall u, j :: FilledOk(env, s, b, u, j))
    && (forall u, c :: HeardOk(env, s, b, u, c))
    && (forall k :: k in s.tasks ==> ReportOk(env, b, k) && CollectedOk(env, b, k))
  }

  lemma StartOut(env: Env)
    ensures OutInv(env, Start(env), NONE, BLANK)
  {
    hide Listing, SubDirs;
    assert Successes(BLANK) == {};
    SingleTally(Hopeless(env), DispatchTask(env.root, None));
  }

  // ----- Steps that leave nodes and results alone -----

  /** Nodes and results as before; new tasks are in order. */
  lemma KeptOut(env: Env, s: State, s': State, g: Trace, g': Trace, b: Book, b': Book)
    requires OutInv(env, s, g, b) && g'.ended == g.ended && b'.results == b.results && s'.nodes == s.nodes
    requires forall c, u :: IsChildOf(s', c, u) ==> IsChildOf(s, c, u)
    requires forall k :: k in s.tasks && k.ChildDoneTask? ==> k in s'.tasks
    requires forall k :: k in s'.tasks && k !in s.tasks ==> ReportOk(env, b, k) && CollectedOk(env, b, k)
    requires StatsOk(env, s', b') && FailuresOk(env, s', b')
    ensures OutInv(env, s', g', b')
  {
    hide StatsOk, FailuresOk, SubDirs, Listing, IndexOf, IsChildOf;
    forall u ensures ShapeOk(env, s', u) { assert ShapeOk(env, s, u); }
    forall u, j ensures FilledOk(env, s', b', u, j) { assert FilledOk(env, s, b, u, j); }
    forall u, c ensures HeardOk(env, s', b', u, c) { assert HeardOk(env, s, b, u, c); }
    forall k | k in s'.tasks ensures ReportOk(env, b', k) && CollectedOk(env, b', k) {
      if k in s.tasks { assert ReportOk(env, b, k) && CollectedOk(env, b, k); }
      SameBook(env, b, b', k);
    }
  }

  lemma SameBook(env: Env, b: Book, b': Book, k: Task)
    requires b'.results == b.results && ReportOk(env, b, k) && CollectedOk(env, b, k)
    ensures ReportOk(env, b', k) && CollectedOk(env, b', k)
  {
    hide SubDirs, Listing;
    if k.AwaitSlot? || k.Generating? || k.Storing? {
      forall j | 0 <= j < |k.collected| ensures EntryOk(env, b', SubDirs(env, k.uri)[j], k.collected[j]) {
        assert EntryOk(env, b, SubDirs(env, k.uri)[j], k.collected[j]);
      }
    }
  }

  lemma SilentOut(env: Env, s: State, g: Trace, b: Book, k: Task)
    requires Inv(env, s, g) && OutInv(env, s, g, b) && k in s.tasks && k.DispatchTask? && k.uri in s.nodes
    ensures var s', a := s.(tasks := s.tasks - multiset{k}), Action(k, Fails);
      OutInv(env, s', Advance(env, s, g, a), Note(env, b, a))
  {
    hide Tally, SubDirs, Listing, Occurs, Muted, Placed, Counted, Staged, RootOk, Sound, Kids;
    var s', a := s.(tasks := s.tasks - multiset{k}), Action(k, Fails);
    assert Known(env, s, g, k.uri);
    TallyPick(s.tasks, Hopeless(env), k);
    KeptOut(env, s, s', g, Advance(env, s, g, a), b, Note(env, b, a));
  }

  lemma FailOut(env: Env, s: State, s': State, g: Trace, b: Book, k: Task)
    requires OutInv(env, s, g, b) && Misses(env, s, s', k) && s'.stats == s.stats.(failed := s.stats.failed + 1)
    ensures OutInv(env, s', g, b.(failures := b.failures + 1))
  {
    hide Tally, SubDirs, Listing, IndexOf, OutInv;
    var b' := b.(failures := b.failures + 1);
    OutParts(env, s, g, b);
    TallyPick(s.tasks, Hopeless(env), k);
    if k.parent.Some? {
      TallyAdd(s.tasks - multiset{k}, Hopeless(env), ChildDoneTask(k.parent.value, k.uri, None));
    } else {
      assert s'.tasks == s.tasks - multiset{k};
    }
    assert Successes(b') == Successes(b);
    KeptOut(env, s, s', g, g, b, b');
  }

  lemma OutParts(env: Env, s: State, g: Trace, b: Book)
    requires OutInv(env, s, g, b)
    ensures StatsOk(env, s, b) && FailuresOk(env, s, b) && b.results.Keys == g.ended
  {
  }

  lemma StageOut(env: Env, s: State, s': State, g: Trace, b: Book, k: Task, k': Task)
    requires OutInv(env, s, g, b) && k in s.tasks && IsStage(k) && IsStage(k') && CollectedOk(env, b, k')
    requires s' == s.(tasks := s.tasks - multiset{k} + multiset{k'}, slots := s'.slots)
    ensures OutInv(env, s', g, b)
  {
    hide Tally, SubDirs, Listing, IndexOf, OutInv;
    OutParts(env, s, g, b);
    TallySwap(s.tasks, Hopeless(env), k, k');
    KeptOut(env, s, s', g, g, b, b);
  }

  // ----- A directory is registered -----

  ghost predicate OpensWith(env: Env, s: State, s': State, k: Task, n: Node) {
    && k in s.tasks && k.DispatchTask? && k.uri !in s.nodes && Listing(env, k.uri).Some?
    && n.dirs == SubDirs(env, k.uri) && n.childIndex == IndexOf(n.dirs) && n.summaries == seq(|n.dirs|, _ => None)
    && s'.nodes == s.nodes[k.uri := n] && s'.parents == s.parents[k.uri := k.parent]
    && s'.tasks == s.tasks - multiset{k} + NewTasks(env, k.uri)
    && s'.stats == s.stats.(total := s.stats.total + 1, pending := s.stats.pending + 1)
  }

  lemma DispatchStats(env: Env, s: State, u: Uri, p: Option<Uri>)
    requires u !in s.nodes && Listing(env, u).Some?
    ensures Dispatch(env, s, u, p).stats == s.stats.(total := s.stats.total + 1, pending := s.stats.pending + 1)
  {
    hide SubDirs, Files, FileTasks, DispatchTasks, FreshNode;
  }

  lemma DispatchOpensWith(env: Env, s: State, k: Task)
    requires k in s.tasks && k.DispatchTask? && k.uri !in s.nodes && Listing(env, k.uri).Some?
    ensures exists n :: OpensWith(env, s, Dispatch(env, s.(tasks := s.tasks - multiset{k}), k.uri, k.parent), k, n)
  {
    hide SubDirs, Files, Listing, NewTasks, Dispatch, FreshNode, IndexOf;
    var s0 := s.(tasks := s.tasks - multiset{k});
    DispatchStats(env, s0, k.uri, k.parent);
    DispatchIs(env, s0, k.uri, k.parent);
    FreshSummaries(env, k.uri);
    var n := FreshNode(env, k.uri).(scheduled := FreshNode(env, k.uri).pending == 0);
    assert OpensWith(env, s, Dispatch(env, s0, k.uri, k.parent), k, n);
  }

  lemma FreshSummaries(env: Env, u: Uri)
    ensures var n := FreshNode(env, u);
      n.dirs == SubDirs(env, u) && n.childIndex == IndexOf(n.dirs) && n.summaries == seq(|n.dirs|, _ => None)
  {
    hide SubDirs, Files, IndexOf;
  }

  lemma OpenOut(env: Env, s: State, s': State, g: Trace, g': Trace, b: Book, k: Task, n: Node)
    requires OutInv(env, s, g, b) && OpensWith(env, s, s', k, n) && g'.ended == g.ended && Childless(s, k.uri)
    ensures OutInv(env, s', g', b)
  {
    hide Tally, SubDirs, Listing, IndexOf, StatsOk, FailuresOk, NewTasks, OpensWith, ShapeOk, FilledOk, HeardOk,
      ReportOk, CollectedOk;
    OpenNumbers(env, s, s', b, k, n);
    assert b.results.Keys <= s.nodes.Keys by { StatsKeys(env, s, b); }
    forall u ensures ShapeOk(env, s', u) {
      assert ShapeOk(env, s, u);
      OpenShape(env, s, s', b, k, n, u);
    }
    forall u, j ensures FilledOk(env, s', b, u, j) {
      assert FilledOk(env, s, b, u, j);
      OpenFilled(env, s, s', b, k, n, u, j);
    }
    forall u, c ensures HeardOk(env, s', b, u, c) {
      assert HeardOk(env, s, b, u, c);
      OpenHeard(env, s, s', b, k, n, u, c);
    }
    forall x | x in s'.tasks ensures ReportOk(env, b, x) && CollectedOk(env, b, x) {
      OpenTask(env, s, s', b, k, n, x);
    }
  }

  lemma StatsKeys(env: Env, s: State, b: Book)
    requires StatsOk(env, s, b)
    ensures b.results.Keys <= s.nodes.Keys
  {
  }

  lemma OpenShape(env: Env, s: State, s': State, b: Book, k: Task, n: Node, u: Uri)
    requires OpensWith(env, s, s', k, n) && ShapeOk(env, s, u)
    ensures ShapeOk(env, s', u)
  {
    hide SubDirs, Listing, IndexOf, NewTasks;
  }

  lemma OpenFilled(env: Env, s: State, s': State, b: Book, k: Task, n: Node, u: Uri, j: nat)
    requires OpensWith(env, s, s', k, n) && FilledOk(env, s, b, u, j)
    ensures FilledOk(env, s', b, u, j)
  {
    hide SubDirs, Listing, IndexOf, NewTasks;
  }

  lemma OpenHeard(env: Env, s: State, s': State, b: Book, k: Task, n: Node, u: Uri, c: Uri)
    requires OpensWith(env, s, s', k, n) && HeardOk(env, s, b, u, c) && Childless(s, k.uri)
    requires b.results.Keys <= s.nodes.Keys
    ensures HeardOk(env, s', b, u, c)
  {
    hide SubDirs, Listing, IndexOf, NewTasks;
    if IsChildOf(s', c, u) && c in b.results {
      assert c in s.nodes.Keys;
      assert IsChildOf(s, c, u);
    }
  }

  ghost predicate Childless(s: State, u: Uri) {
    forall c :: !IsChildOf(s, c, u)
  }

  lemma UnknownIsChildless(env: Env, s: State, g: Trace, u: Uri)
    requires Inv(env, s, g) && u !in s.nodes
    ensures Childless(s, u)
  {
    hide Inv, Tally;
    IsStrange(env, s, g, u);
  }

  lemma OpenTask(env: Env, s: State, s': State, b: Book, k: Task, n: Node, x: Task)
    requires OpensWith(env, s, s', k, n) && x in s'.tasks
    requires x in s.tasks ==> ReportOk(env, b, x) && CollectedOk(env, b, x)
    ensures ReportOk(env, b, x) && CollectedOk(env, b, x)
  {
    hide SubDirs, Listing, IndexOf, NewTasks, EntriesOk;
    NewMembers(env, k.uri);
  }

  lemma OpenNumbers(env: Env, s: State, s': State, b: Book, k: Task, n: Node)
    requires OpensWith(env, s, s', k, n) && StatsOk(env, s, b) && FailuresOk(env, s, b)
    ensures StatsOk(env, s', b) && FailuresOk(env, s', b)
  {
    hide Tally, SubDirs, Listing, IndexOf, NewTasks, UnlistableSum, Unlistable;
    var u := k.uri;
    TallyPick(s.tasks, Hopeless(env), k);
    TallyUnion(s.tasks - multiset{k}, NewTasks(env, u), Hopeless(env));
    NewHopeless(env, u);
    UnlistablePick(env, s'.nodes.Keys, u);
    assert s'.nodes.Keys - {u} == s.nodes.Keys;
    assert s'.nodes.Keys == s.nodes.Keys + {u};
  }

  // ----- Reports -----

  /** The report k was received for p; the slots are as in n. */
  ghost predicate HearsAs(s: State, s': State, k: Task, p: Uri, n: Node) {
    && k in s.tasks && p in s.nodes && s'.nodes == s.nodes[p := n] && s'.parents == s.parents && s'.stats == s.stats
    && n.dirs == s.nodes[p].dirs && n.childIndex == s.nodes[p].childIndex
    && |n.summaries| == |s.nodes[p].summaries|
    && (s'.tasks == s.tasks - multiset{k} || s'.tasks == s.tasks - multiset{k} + multiset{SummaryTask(p)})
    && (k.FileTask? || (k.ChildDoneTask? && k.owner == p))
    && (k.FileTask? ==> n.summaries == s.nodes[p].summaries)
    && (k.ChildDoneTask? ==> n.summaries == Record(s.nodes[p], k.child, k.summary).summaries)
  }

  lemma HearOut(env: Env, s: State, s': State, g: Trace, b: Book, k: Task, p: Uri, n: Node)
    requires Inv(env, s, g) && OutInv(env, s, g, b) && HearsAs(s, s', k, p, n)
    ensures OutInv(env, s', g, b)
  {
    hide Inv, Tally, SubDirs, Listing, IndexOf, StatsOk, FailuresOk, ShapeOk, FilledOk, HeardOk, ReportOk, CollectedOk,
      HearsAs;
    HearNumbers(env, s, s', b, k, p, n);
    HearKeeps(s, s', k, p, n);
    assert ShapeOk(env, s, p) && ReportOk(env, b, k);
    forall u ensures ShapeOk(env, s', u) {
      assert ShapeOk(env, s, u);
      HearShape(env, s, s', k, p, n, u);
    }
    forall u, j ensures FilledOk(env, s', b, u, j) {
      assert FilledOk(env, s, b, u, j);
      HearFilled(env, s, s', b, k, p, n, u, j);
    }
    forall u, c ensures HeardOk(env, s', b, u, c) {
      assert HeardOk(env, s, b, u, c);
      if c in s.nodes { NodeListed(env, s, g, c); }
      HearHeard(env, s, s', b, k, p, n, u, c);
    }
    forall x | x in s'.tasks ensures ReportOk(env, b, x) && CollectedOk(env, b, x) {
      HearTask(env, s, s', b, k, p, n, x);
    }
  }

  lemma HearKeeps(s: State, s': State, k: Task, p: Uri, n: Node)
    requires HearsAs(s, s', k, p, n)
    ensures k in s.tasks
  {
  }

  lemma NodeListed(env: Env, s: State, g: Trace, u: Uri)
    requires Inv(env, s, g) && u in s.nodes
    ensures Listing(env, u).Some?
  {
    hide Tally, SubDirs, Listing, Occurs, Muted, Placed, Counted, Staged, RootOk, Sound;
    assert Known(env, s, g, u);
  }

  lemma HearNumbers(env: Env, s: State, s': State, b: Book, k: Task, p: Uri, n: Node)
    requires StatsOk(env, s, b) && FailuresOk(env, s, b) && HearsAs(s, s', k, p, n)
    ensures StatsOk(env, s', b) && FailuresOk(env, s', b)
  {
    hide Tally, SubDirs, Listing, UnlistableSum, Record;
    TallyPick(s.tasks, Hopeless(env), k);
    TallyAdd(s.tasks - multiset{k}, Hopeless(env), SummaryTask(p));
    assert s'.nodes.Keys == s.nodes.Keys;
    assert |s'.nodes| == |s'.nodes.Keys| && |s.nodes| == |s.nodes.Keys|;
  }

  lemma HearShape(env: Env, s: State, s': State, k: Task, p: Uri, n: Node, u: Uri)
    requires ShapeOk(env, s, u) && HearsAs(s, s', k, p, n)
    ensures ShapeOk(env, s', u)
  {
    hide SubDirs, IndexOf, Record;
  }

  lemma HearFilled(env: Env, s: State, s': State, b: Book, k: Task, p: Uri, n: Node, u: Uri, j: nat)
    requires FilledOk(env, s, b, u, j) && ShapeOk(env, s, p) && ReportOk(env, b, k) && HearsAs(s, s', k, p, n)
    ensures FilledOk(env, s', b, u, j)
  {
    hide SubDirs, Listing;
  }

  lemma HearHeard(env: Env, s: State, s': State, b: Book, k: Task, p: Uri, n: Node, u: Uri, c: Uri)
    requires HeardOk(env, s, b, u, c) && ShapeOk(env, s, p) && ReportOk(env, b, k) && HearsAs(s, s', k, p, n)
    requires c in s.nodes ==> Listing(env, c).Some?
    ensures HeardOk(env, s', b, u, c)
  {
    hide SubDirs, Listing;
    assert IsChildOf(s', c, u) ==> IsChildOf(s, c, u);
  }

  lemma HearTask(env: Env, s: State, s': State, b: Book, k: Task, p: Uri, n: Node, x: Task)
    requires HearsAs(s, s', k, p, n) && x in s'.tasks
    requires x in s.tasks ==> ReportOk(env, b, x) && CollectedOk(env, b, x)
    ensures ReportOk(env, b, x) && CollectedOk(env, b, x)
  {
    hide Record, Listing, EntriesOk;
  }

  lemma ReportHears(env: Env, s: State, a: Action)
    requires Enabled(s, a) && (a.task.FileTask? || a.task.ChildDoneTask?) && a.task.owner in s.nodes
    ensures exists n :: HearsAs(s, Next(env, s, a), a.task, a.task.owner, n)
  {
    hide Dispatch, Settle, StartSummary;
    var k, p := a.task, a.task.owner;
    var n0 := if k.FileTask? then s.nodes[p] else Record(s.nodes[p], k.child, k.summary);
    var n1 := n0.(pending := s.nodes[p].pending - 1);
    var n := if n1.pending == 0 && !n1.scheduled then n1.(scheduled := true) else n1;
    assert HearsAs(s, Next(env, s, a), k, p, n);
  }

  // ----- Summaries -----

  lemma {:induction false} OnlyPosition(ds: seq<Uri>, j: nat)
    requires j < |ds| && multiset(ds)[ds[j]] == 1
    ensures ds[j] in IndexOf(ds) && IndexOf(ds)[ds[j]] == j
  {
    var init, last := ds[..|ds| - 1], ds[|ds| - 1];
    assert ds == init + [last];
    assert multiset(ds) == multiset(init) + multiset{last};
    if j < |ds| - 1 {
      assert init[j] in multiset(init);
      OnlyPosition(init, j);
    }
  }

  /** What a summary is generated from when it starts. */
  lemma StartCollects(env: Env, s: State, g: Trace, b: Book, k: Task)
    requires Inv(env, s, g) && OutInv(env, s, g, b) && k in s.tasks && k.SummaryTask? && k.uri in s.nodes
    ensures EntriesOk(env, b, k.uri, Collect(s.nodes[k.uri].dirs, s.nodes[k.uri].summaries))
  {
    hide Inv, StatsOk, FailuresOk, SubDirs, Listing, IndexOf, HeardOk, FilledOk, ReportOk, CollectedOk, EntryOk;
    var u := k.uri;
    assert ShapeOk(env, s, u);
    var n, ds := s.nodes[u], SubDirs(env, u);
    forall j | 0 <= j < |ds| ensures EntryOk(env, b, ds[j], Collect(n.dirs, n.summaries)[j]) {
      assert FilledOk(env, s, b, u, j) && HeardOk(env, s, b, u, ds[j]);
      EntryIs(env, s, g, b, k, j);
    }
  }

  lemma EntryIs(env: Env, s: State, g: Trace, b: Book, k: Task, j: nat)
    requires Inv(env, s, g) && b.results.Keys == g.ended && k in s.tasks && k.SummaryTask? && k.uri in s.nodes
    requires ShapeOk(env, s, k.uri) && j < |SubDirs(env, k.uri)| && FilledOk(env, s, b, k.uri, j)
    requires HeardOk(env, s, b, k.uri, SubDirs(env, k.uri)[j])
    ensures var n := s.nodes[k.uri];
      EntryOk(env, b, SubDirs(env, k.uri)[j], Collect(n.dirs, n.summaries)[j])
  {
    hide Inv, SubDirs, Listing, IndexOf;
    var u, ds := k.uri, SubDirs(env, k.uri);
    var c := ds[j];
    if Listing(env, c).Some? {
      assert Names(env, u, c);
      StageIsSettled(env, s, g, k, c);
      OnlyPosition(ds, j);
      assert OwesTo(u)(ChildDoneTask(u, c, b.results[c]));
    }
  }

  lemma EntriesStay(env: Env, b: Book, b': Book, u: Uri, entries: seq<ChildSummary>)
    requires EntriesOk(env, b, u, entries)
    requires forall c :: c in b.results ==> c in b'.results && b'.results[c] == b.results[c]
    ensures EntriesOk(env, b', u, entries)
  {
    hide SubDirs, Listing;
    forall j | 0 <= j < |entries| ensures EntryOk(env, b', SubDirs(env, u)[j], entries[j]) {
      assert EntryOk(env, b, SubDirs(env, u)[j], entries[j]);
    }
  }

  /** The step by which u ends, with its result. */
  ghost predicate EndsBy(env: Env, s: State, s': State, b: Book, b': Book, k: Task, r: Option<ChildSummary>) {
    && k in s.tasks && (k.Generating? || k.Storing?) && k.uri in s.nodes && k.uri !in b.results
    && Listing(env, k.uri).Some? && k.uri in s.parents
    && b' == b.(results := b.results[k.uri := r]) && s'.nodes == s.nodes && s'.parents == s.parents
    && (if s.parents[k.uri].None? then s'.tasks == s.tasks - multiset{k}
        else s'.tasks == s.tasks - multiset{k} + multiset{ChildDoneTask(s.parents[k.uri].value, k.uri, r)})
    && s'.stats.total == s.stats.total
    && s'.stats.pending == (if s.stats.pending - 1 > 0 then s.stats.pending - 1 else 0)
    && s'.stats.completed == s.stats.completed + (if r.Some? then 1 else 0)
    && s'.stats.failed == s.stats.failed + (if r.Some? then 0 else 1)
  }

  lemma SettleEndsBy(env: Env, s: State, s1: State, g: Trace, b: Book, k: Task, r: Option<ChildSummary>)
    requires Inv(env, s, g) && b.results.Keys == g.ended && k in s.tasks && (k.Generating? || k.Storing?)
    requires s1 == s.(tasks := s.tasks - multiset{k}, slots := s1.slots)
    ensures EndsBy(env, s, Settle(s1, k.uri, r), b, b.(results := b.results[k.uri := r]), k, r)
  {
    hide Inv, Listing;
    StageFacts(env, s, g, k);
    NodeListed(env, s, g, k.uri);
  }

  lemma EndOut(env: Env, s: State, s': State, g: Trace, b: Book, b': Book, k: Task, r: Option<ChildSummary>)
    requires OutInv(env, s, g, b) && EndsBy(env, s, s', b, b', k, r)
    ensures OutInv(env, s', g.(ended := g.ended + {k.uri}), b')
  {
    hide SubDirs, Listing, IndexOf, StatsOk, FailuresOk, FilledOk, HeardOk, ReportOk, CollectedOk, ShapeOk, EndsBy;
    EndNumbers(env, s, s', b, b', k, r);
    EndKeeps(env, s, s', b, b', k, r);
    forall u ensures ShapeOk(env, s', u) {
      assert ShapeOk(env, s, u);
      SameShape(env, s, s', u);
    }
    forall u, j ensures FilledOk(env, s', b', u, j) {
      assert FilledOk(env, s, b, u, j);
      EndFilled(env, s, s', b, b', k, r, u, j);
    }
    forall u, c ensures HeardOk(env, s', b', u, c) {
      assert HeardOk(env, s, b, u, c);
      EndHeard(env, s, s', b, b', k, r, u, c);
    }
    forall x | x in s'.tasks ensures ReportOk(env, b', x) && CollectedOk(env, b', x) {
      EndTask(env, s, s', b, b', k, r, x);
    }
  }

  lemma EndKeeps(env: Env, s: State, s': State, b: Book, b': Book, k: Task, r: Option<ChildSummary>)
    requires EndsBy(env, s, s', b, b', k, r)
    ensures b'.results.Keys == b.results.Keys + {k.uri} && s'.nodes == s.nodes
  {
    hide Listing;
  }

  lemma SameShape(env: Env, s: State, s': State, u: Uri)
    requires ShapeOk(env, s, u) && s'.nodes == s.nodes
    ensures ShapeOk(env, s', u)
  {
    hide SubDirs, IndexOf;
  }

  lemma EndNumbers(env: Env, s: State, s': State, b: Book, b': Book, k: Task, r: Option<ChildSummary>)
    requires StatsOk(env, s, b) && FailuresOk(env, s, b) && EndsBy(env, s, s', b, b', k, r)
    ensures StatsOk(env, s', b') && FailuresOk(env, s', b')
  {
    EndFailures(env, s, s', b, b', k, r);
    EndStats(env, s, s', b, b', k, r);
  }

  lemma EndFailures(env: Env, s: State, s': State, b: Book, b': Book, k: Task, r: Option<ChildSummary>)
    requires FailuresOk(env, s, b) && EndsBy(env, s, s', b, b', k, r)
    ensures FailuresOk(env, s', b')
  {
    hide Tally, SubDirs, Listing, UnlistableSum;
    TallyPick(s.tasks, Hopeless(env), k);
    if s.parents[k.uri].Some? {
      TallyAdd(s.tasks - multiset{k}, Hopeless(env), ChildDoneTask(s.parents[k.uri].value, k.uri, r));
    }
  }

  lemma EndStats(env: Env, s: State, s': State, b: Book, b': Book, k: Task, r: Option<ChildSummary>)
    requires StatsOk(env, s, b) && EndsBy(env, s, s', b, b', k, r)
    ensures StatsOk(env, s', b')
  {
    hide Listing, Successes;
    OneFewer(s.nodes.Keys, b.results.Keys, k.uri);
    OneResult(b.results, k.uri, r);
    SuccessesMore(b, k.uri, r);
    assert |s.nodes| == |s.nodes.Keys|;
  }

  lemma OneResult(m: map<Uri, Option<ChildSummary>>, u: Uri, r: Option<ChildSummary>)
    requires u !in m
    ensures |m[u := r]| == |m| + 1 && |m| == |m.Keys| && m[u := r].Keys == m.Keys + {u}
  {
  }

  lemma SuccessesMore(b: Book, u: Uri, r: Option<ChildSummary>)
    requires u !in b.results
    ensures |Successes(b.(results := b.results[u := r]))| == |Successes(b)| + if r.Some? then 1 else 0
  {
    assert Successes(b.(results := b.results[u := r])) == Successes(b) + if r.Some? then {u} else {};
  }

  lemma OneFewer<T>(a: set<T>, b: set<T>, x: T)
    requires b <= a && x in a && x !in b
    ensures |b| + 1 <= |a| && |b + {x}| == |b| + 1
  {
    assert b + {x} <= a;
    var rest := a - (b + {x});
    assert a == (b + {x}) + rest;
  }

  lemma EndFilled(env: Env, s: State, s': State, b: Book, b': Book, k: Task, r: Option<ChildSummary>, u: Uri, j: nat)
    requires FilledOk(env, s, b, u, j) && EndsBy(env, s, s', b, b', k, r)
    ensures FilledOk(env, s', b', u, j)
  {
    hide SubDirs, Listing;
  }

  lemma EndHeard(env: Env, s: State, s': State, b: Book, b': Book, k: Task, r: Option<ChildSummary>, u: Uri, c: Uri)
    requires HeardOk(env, s, b, u, c) && EndsBy(env, s, s', b, b', k, r)
    ensures HeardOk(env, s', b', u, c)
  {
    hide SubDirs, Listing, IndexOf;
    assert IsChildOf(s', c, u) ==> IsChildOf(s, c, u);
  }

  lemma EndTask(env: Env, s: State, s': State, b: Book, b': Book, k: Task, r: Option<ChildSummary>, x: Task)
    requires EndsBy(env, s, s', b, b', k, r) && x in s'.tasks
    requires x in s.tasks ==> ReportOk(env, b, x) && CollectedOk(env, b, x)
    ensures ReportOk(env, b', x) && CollectedOk(env, b', x)
  {
    hide Listing, EntriesOk;
    if x in s.tasks && (x.AwaitSlot? || x.Generating? || x.Storing?) { EntriesStay(env, b, b', x.uri, x.collected); }
  }

  // ----- Every run -----

  lemma StepOut(env: Env, s: State, g: Trace, b: Book, a: Action)
    requires Inv(env, s, g) && OutInv(env, s, g, b) && Enabled(s, a)
    ensures OutInv(env, Next(env, s, a), Advance(env, s, g, a), Note(env, b, a))
  {
    hide Inv, OutInv;
    match a.task
    case DispatchTask(_, _) => DispatchOut(env, s, g, b, a);
    case FileTask(_, _) => ReportOut(env, s, g, b, a);
    case ChildDoneTask(_, _, _) => ReportOut(env, s, g, b, a);
    case _ => SummaryOut(env, s, g, b, a);
  }

  lemma DispatchOut(env: Env, s: State, g: Trace, b: Book, a: Action)
    requires Inv(env, s, g) && OutInv(env, s, g, b) && Enabled(s, a) && a.task.DispatchTask?
    ensures OutInv(env, Next(env, s, a), Advance(env, s, g, a), Note(env, b, a))
  {
    hide Inv, OutInv, Listing, Register, FailDispatch, OpensWith, Misses, Next;
    var k, s' := a.task, Next(env, s, a);
    NextDispatches(env, s, a);
    if k.uri in s.nodes {
      NodeListed(env, s, g, k.uri);
      SilentOut(env, s, g, b, k);
    } else if Listing(env, k.uri).None? {
      FailMisses(env, s, g, k);
      FailOut(env, s, s', g, b, k);
    } else {
      DispatchOpensWith(env, s, k);
      var n :| OpensWith(env, s, s', k, n);
      UnknownIsChildless(env, s, g, k.uri);
      OpenOut(env, s, s', g, Advance(env, s, g, a), b, k, n);
    }
  }

  lemma NextDispatches(env: Env, s: State, a: Action)
    requires Enabled(s, a) && a.task.DispatchTask?
    ensures Next(env, s, a) == Dispatch(env, s.(tasks := s.tasks - multiset{a.task}), a.task.uri, a.task.parent)
  {
    hide Dispatch;
  }

  lemma FailMisses(env: Env, s: State, g: Trace, k: Task)
    requires Inv(env, s, g) && k in s.tasks && k.DispatchTask? && k.uri !in s.nodes && Listing(env, k.uri).None?
    ensures var s' := FailDispatch(s.(tasks := s.tasks - multiset{k}), k.uri, k.parent);
      Misses(env, s, s', k) && s'.stats == s.stats.(failed := s.stats.failed + 1)
  {
    hide Tally, SubDirs, Listing, Occurs, Muted, Known, Placed, Counted, Staged, RootOk, Misses;
    assert Sound(env, s, k);
    if k.parent.Some? { NamesNode(env, s, g, k.parent.value) by { assert Known(env, s, g, k.parent.value); } }
    else { LoneRoot(env, s, g, k); }
    FailIs(env, s, k);
  }

  lemma ReportOut(env: Env, s: State, g: Trace, b: Book, a: Action)
    requires Inv(env, s, g) && OutInv(env, s, g, b) && Enabled(s, a) && (a.task.FileTask? || a.task.ChildDoneTask?)
    ensures OutInv(env, Next(env, s, a), Advance(env, s, g, a), Note(env, b, a))
  {
    hide Inv, OutInv, Next, HearsAs, Listing;
    OwnerKnown(env, s, g, a.task);
    ReportHears(env, s, a);
    var n :| HearsAs(s, Next(env, s, a), a.task, a.task.owner, n);
    HearOut(env, s, Next(env, s, a), g, b, a.task, a.task.owner, n);
  }

  lemma SummaryOut(env: Env, s: State, g: Trace, b: Book, a: Action)
    requires Inv(env, s, g) && OutInv(env, s, g, b) && Enabled(s, a) && IsStage(a.task)
    ensures OutInv(env, Next(env, s, a), Advance(env, s, g, a), Note(env, b, a))
  {
    hide Inv, OutInv, Next, Advance, Note;
    StageFacts(env, s, g, a.task);
    if a.task.SummaryTask? || a.task.AwaitSlot? || (a.task.Generating? && a.outcome.Succeeds?) {
      MovesOnOut(env, s, g, b, a);
    } else {
      EndsOut(env, s, g, b, a);
    }
  }

  lemma TaskCollected(env: Env, s: State, g: Trace, b: Book, k: Task)
    requires OutInv(env, s, g, b) && k in s.tasks && (k.AwaitSlot? || k.Generating? || k.Storing?)
    ensures EntriesOk(env, b, k.uri, k.collected)
  {
    hide StatsOk, FailuresOk, ShapeOk, FilledOk, HeardOk, ReportOk, EntriesOk;
    assert CollectedOk(env, b, k);
  }

  lemma MovesOnOut(env: Env, s: State, g: Trace, b: Book, a: Action)
    requires Inv(env, s, g) && OutInv(env, s, g, b) && Enabled(s, a) && IsStage(a.task) && a.task.uri in s.nodes
    requires a.task.SummaryTask? || a.task.AwaitSlot? || (a.task.Generating? && a.outcome.Succeeds?)
    ensures OutInv(env, Next(env, s, a), Advance(env, s, g, a), Note(env, b, a))
  {
    hide Inv, OutInv, EntriesOk, Collect, Listing;
    var k, s' := a.task, Next(env, s, a);
    match k
    case SummaryTask(u) =>
      StartCollects(env, s, g, b, k);
      StageOut(env, s, s', g, b, k, AwaitSlot(u, Collect(s.nodes[u].dirs, s.nodes[u].summaries)));
    case AwaitSlot(u, c) =>
      TaskCollected(env, s, g, b, k);
      StageOut(env, s, s', g, b, k, Generating(u, c));
    case Generating(u, c) =>
      TaskCollected(env, s, g, b, k);
      StageOut(env, s, s', g, b, k, Storing(u, c, a.outcome.text));
  }

  lemma EndsOut(env: Env, s: State, g: Trace, b: Book, a: Action)
    requires Inv(env, s, g) && OutInv(env, s, g, b) && Enabled(s, a)
    requires a.task.Storing? || (a.task.Generating? && a.outcome.Fails?)
    ensures OutInv(env, Next(env, s, a), Advance(env, s, g, a), Note(env, b, a))
  {
    hide Inv, OutInv, Settle, EndsBy, Listing;
    var k, s' := a.task, Next(env, s, a);
    OutParts(env, s, g, b);
    var r := if k.Storing? && a.outcome.Succeeds? then Some(ChildSummary(k.uri, k.text, true)) else None;
    var s1 := s.(tasks := s.tasks - multiset{k}, slots := if k.Generating? then s.slots + 1 else s.slots);
    SettleEndsBy(env, s, s1, g, b, k, r);
    EndOut(env, s, s', g, b, b.(results := b.results[k.uri := r]), k, r);
  }

  lemma {:induction false} RunOut(env: Env, acts: seq<Action>)
    requires ValidRun(env, acts) && env.root != ""
    ensures OutInv(env, After(env, acts), TraceOf(env, acts), BookOf(env, acts))
  {
    hide Inv, OutInv, Next, Enabled, Advance, Note;
    if acts == [] {
      StartOut(env);
    } else {
      var init := acts[..|acts| - 1];
      RunOut(env, init);
      RunInv(env, init);
      StepOut(env, After(env, init), TraceOf(env, init), BookOf(env, init), acts[|acts| - 1]);
    }
  }

  // ----- What a run reports -----

  /** The step that ends u, and the summary it reports. */
  predicate EndsAs(a: Action, u: Uri, r: Option<ChildSummary>) {
    && EndsHere(a, u)
    && r == if a.task.Storing? && a.outcome.Succeeds? then Some(ChildSummary(u, a.task.text, true)) else None
  }

  ghost predicate EndedAs(acts: seq<Action>, u: Uri, r: Option<ChildSummary>) {
    exists i :: 0 <= i < |acts| && EndsAs(acts[i], u, r)
  }

  lemma NoteEnds(env: Env, b: Book, a: Action, u: Uri)
    ensures EndsHere(a, u) ==> u in Note(env, b, a).results && EndsAs(a, u, Note(env, b, a).results[u])
    ensures !EndsHere(a, u) ==> (u in Note(env, b, a).results <==> u in b.results)
    ensures !EndsHere(a, u) && u in b.results ==> Note(env, b, a).results[u] == b.results[u]
  {
    hide Listing;
  }

  lemma EndedAsMore(acts: seq<Action>, u: Uri, r: Option<ChildSummary>)
    requires acts != []
    ensures EndedAs(acts, u, r) <==> EndedAs(acts[..|acts| - 1], u, r) || EndsAs(acts[|acts| - 1], u, r)
  {
    hide EndsAs;
    var init := acts[..|acts| - 1];
    if i :| 0 <= i < |init| && EndsAs(init[i], u, r) { assert EndsAs(acts[i], u, r); }
    if i :| 0 <= i < |acts| && EndsAs(acts[i], u, r) {
      if i < |init| { assert EndsAs(init[i], u, r); }
    }
  }

  lemma {:induction false} ResultsAreHistory(env: Env, acts: seq<Action>, u: Uri, r: Option<ChildSummary>)
    requires ValidRun(env, acts) && env.root != ""
    ensures u in BookOf(env, acts).results && BookOf(env, acts).results[u] == r <==> EndedAs(acts, u, r)
  {
    hide Next, Enabled, Advance, Note, Inv, EndsAs, EndsHere, EndedAs;
    if acts == [] {
      assert !EndedAs([], u, r) by { NothingEnded(u, r); }
    } else {
      var init, a := acts[..|acts| - 1], acts[|acts| - 1];
      ResultsAreHistory(env, init, u, r);
      NoteEnds(env, BookOf(env, init), a, u);
      EndedAsMore(acts, u, r);
      if EndsHere(a, u) {
        FirstEnd(env, acts, u, r);
        OneEnd(a, u, BookOf(env, acts).results[u], r);
      } else {
        OneEnd(a, u, r, r);
      }
    }
  }

  lemma NothingEnded(u: Uri, r: Option<ChildSummary>)
    ensures !EndedAs([], u, r)
  {
  }

  lemma OneEnd(a: Action, u: Uri, r: Option<ChildSummary>, r': Option<ChildSummary>)
    ensures EndsAs(a, u, r) && EndsAs(a, u, r') ==> r == r'
    ensures EndsAs(a, u, r') ==> EndsHere(a, u)
  {
  }

  lemma FirstEnd(env: Env, acts: seq<Action>, u: Uri, r: Option<ChildSummary>)
    requires ValidRun(env, acts) && env.root != "" && acts != [] && EndsHere(acts[|acts| - 1], u)
    ensures !EndedAs(acts[..|acts| - 1], u, r)
  {
    hide Next, Advance, Inv;
    var init := acts[..|acts| - 1];
    RunInv(env, init);
    StageFacts(env, After(env, init), TraceOf(env, init), acts[|acts| - 1].task);
    EndedIsHistory(env, init, u);
    assert forall i :: 0 <= i < |init| ==> !EndsHere(init[i], u);
  }

  /** The entry for c in a summary that is made after these steps. */
  ghost predicate EntryFor(env: Env, acts: seq<Action>, c: Uri, e: ChildSummary) {
    if Listing(env, c).Some? then exists r :: EndedAs(acts, c, r) && e == EntryIn(c, r)
    else e == Missing(c)
  }

  function EntryIn(c: Uri, r: Option<ChildSummary>): ChildSummary {
    if r.Some? then r.value else Missing(c)
  }

  /** On any listing a summary is generated from one entry per sub-directory, in listing
      order: the summary with which it ended, or one without an abstract for those that
      failed or could not be listed. */
  lemma CollectsEachChildInOrder(env: Env, acts: seq<Action>, i: nat)
    requires ValidRun(env, acts) && env.root != "" && i < |acts|
    requires acts[i].task.AwaitSlot? || acts[i].task.Generating? || acts[i].task.Storing?
    ensures var ds, entries := SubDirs(env, acts[i].task.uri), acts[i].task.collected;
      |entries| == |ds| && forall j :: 0 <= j < |ds| ==> EntryFor(env, acts[..i], ds[j], entries[j])
  {
    hide Next, Inv, OutInv, SubDirs, EntryFor;
    StepOfRun(env, acts, i);
    RunOut(env, acts[..i]);
    var b, k := BookOf(env, acts[..i]), acts[i].task;
    TaskCollected(env, After(env, acts[..i]), TraceOf(env, acts[..i]), b, k);
    forall j | 0 <= j < |k.collected| ensures EntryFor(env, acts[..i], SubDirs(env, k.uri)[j], k.collected[j]) {
      assert EntryOk(env, b, SubDirs(env, k.uri)[j], k.collected[j]);
      EntryFromHistory(env, acts[..i], SubDirs(env, k.uri)[j], k.collected[j]);
    }
  }

  lemma EntryFromHistory(env: Env, acts: seq<Action>, c: Uri, e: ChildSummary)
    requires ValidRun(env, acts) && env.root != "" && EntryOk(env, BookOf(env, acts), c, e)
    ensures EntryFor(env, acts, c, e)
  {
    hide ValidRun, BookOf, Listing, EndedAs;
    var b := BookOf(env, acts);
    if Listing(env, c).Some? {
      ResultsAreHistory(env, acts, c, b.results[c]);
      assert e == EntryIn(c, b.results[c]);
    }
  }

  // ----- What is left when the root event is set -----

  /** Every registered directory has ended once the root has, and nothing is left. */
  lemma DoneMeansAllEnded(env: Env, s: State, g: Trace)
    requires Inv(env, s, g) && env.root in g.ended
    ensures s.tasks == multiset{} && g.ended == s.nodes.Keys
  {
    hide Inv, Tally;
    forall u ensures u in g.ended <==> u in s.nodes {
      NodeEnded(env, s, g, u);
    }
    forall k ensures k !in s.tasks {
      NoTask(env, s, g, k);
    }
  }

  lemma NodeEnded(env: Env, s: State, g: Trace, u: Uri)
    requires Inv(env, s, g) && env.root in g.ended
    ensures u in g.ended <==> u in s.nodes
    ensures u in s.nodes ==> s.nodes[u].pending == 0
  {
    hide Tally, SubDirs, Listing, Occurs, Muted, Placed, Sound, RootOk;
    assert Staged(s, g, u) && Known(env, s, g, u) && Counted(s, g, u);
    if u in s.nodes && u !in g.ended {
      var i :| 0 <= i < |g.born| && g.born[i] == u;
      OpenUpwards(env, s, g, i);
    }
  }

  lemma NothingOwed(env: Env, s: State, g: Trace, u: Uri)
    requires Inv(env, s, g) && env.root in g.ended
    ensures u in s.nodes ==> forall k :: k in s.tasks ==> !OwesTo(u)(k)
  {
    hide Inv, Tally;
    NodeEnded(env, s, g, u);
    assert u in s.nodes ==> Tally(s.tasks, OwesTo(u)) == 0 by { CountedIs(env, s, g, u); }
    forall k | k in s.tasks && u in s.nodes ensures !OwesTo(u)(k) {
      if OwesTo(u)(k) { TallySome(s.tasks, OwesTo(u), k); }
    }
  }

  lemma CountedIs(env: Env, s: State, g: Trace, u: Uri)
    requires Inv(env, s, g)
    ensures u in s.nodes ==> s.nodes[u].pending >= Tally(s.tasks, OwesTo(u))
  {
    hide Tally, SubDirs, Listing, Occurs, Muted, Placed, Staged, Known, RootOk, Sound;
    assert Counted(s, g, u);
  }

  /** Any task would keep some registered directory from having ended. */
  lemma NoTask(env: Env, s: State, g: Trace, k: Task)
    requires Inv(env, s, g) && env.root in g.ended
    ensures k !in s.tasks
  {
    hide Tally, SubDirs, Listing, Occurs, Muted, Placed, Staged, Known, RootOk, Counted;
    if IsStage(k) {
      NodeEnded(env, s, g, k.uri);
      if k in s.tasks { StageFacts(env, s, g, k); }
    } else {
      assert Sound(env, s, k);
      NodeEnded(env, s, g, env.root);
      NothingOwed(env, s, g, if !k.DispatchTask? then k.owner else if k.parent.Some? then k.parent.value else "");
    }
  }

  /** The directories within reach, as a finite set. */
  ghost predicate AreReached(env: Env, dirs: set<Uri>) {
    forall u :: u in dirs <==> Reaches(env, u)
  }

  ghost predicate EndedWell(acts: seq<Action>, u: Uri) {
    exists r: ChildSummary :: EndedAs(acts, u, Some(r))
  }

  /** The directories whose summary was generated and stored. */
  ghost function EndedWellIn(acts: seq<Action>, dirs: set<Uri>): set<Uri> {
    set u | u in dirs && EndedWell(acts, u)
  }

  /** The listing entries that name a directory which cannot be listed, and the root if
      it cannot be listed itself. */
  ghost function UnlistableEntries(env: Env, dirs: set<Uri>): nat {
    UnlistableSum(env, dirs) + if Listing(env, env.root).None? then 1 else 0
  }

  /** On any listing, when the root event is set: every directory within reach has been
      registered and has ended, nothing is pending, the total is their number, the
      completed ones are those whose summary was stored, and completed plus failed is
      the total plus one for each entry that could not be listed. */
  lemma DoneStatistics(env: Env, acts: seq<Action>, dirs: set<Uri>)
    requires IsDirectoryUri(env.root) && ValidRun(env, acts) && After(env, acts).rootDone && AreReached(env, dirs)
    ensures var s := After(env, acts);
      && s.tasks == multiset{} && s.nodes.Keys == dirs
      && s.stats.pending == 0 && s.stats.total == |dirs|
      && s.stats.completed == |EndedWellIn(acts, dirs)|
      && s.stats.completed + s.stats.failed == s.stats.total + UnlistableEntries(env, dirs)
    ensures forall u :: u in dirs ==> EndedIn(acts, u)
  {
    hide Next, Enabled, Inv, OutInv, Listing, Reaches, AreReached, Tally, UnlistableSum, EndedIn, EndedWellIn;
    var s, g, b := After(env, acts), TraceOf(env, acts), BookOf(env, acts);
    RunInv(env, acts);
    RunOut(env, acts);
    OutParts(env, s, g, b);
    if Listing(env, env.root).Some? {
      RootEnded(env, s, g);
      DoneMeansAllEnded(env, s, g);
      NodesAreReached(env, s, g, dirs);
    } else {
      UnlistableRoot(env, s, g, dirs);
    }
    TallyNone(s.tasks, Hopeless(env));
    assert b.results.Keys == dirs;
    assert |b.results| == |b.results.Keys| && |s.nodes| == |s.nodes.Keys|;
    SuccessesAre(env, acts, dirs);
    forall u | u in dirs ensures EndedIn(acts, u) { EndedIsHistory(env, acts, u); }
  }

  lemma NodesAreReached(env: Env, s: State, g: Trace, dirs: set<Uri>)
    requires Inv(env, s, g) && env.root in g.ended && AreReached(env, dirs)
    ensures s.nodes.Keys == dirs
  {
    hide Inv, Reaches;
    forall u ensures u in s.nodes <==> u in dirs {
      if u in s.nodes { NodeIsReached(env, s, g, u); }
      if u in dirs { RootEndedReached(env, s, g, u); }
    }
  }

  lemma UnlistableRoot(env: Env, s: State, g: Trace, dirs: set<Uri>)
    requires Inv(env, s, g) && s.rootDone && Listing(env, env.root).None? && AreReached(env, dirs)
    ensures s.tasks == multiset{} && s.nodes.Keys == dirs && g.ended == {} && dirs == {}
  {
    hide Tally, SubDirs, Listing, Occurs, Muted, Placed, Counted, Sound;
    assert Known(env, s, g, env.root);
    forall u ensures u !in g.ended && u !in dirs {
      assert Staged(s, g, u);
      if Reaches(env, u) {
        var p :| Path(env, p) && p[|p| - 1] == u;
        PathStartsListed(env, p);
      }
    }
  }

  lemma {:induction false} PathStartsListed(env: Env, p: seq<Uri>)
    requires Path(env, p)
    ensures Listing(env, env.root).Some?
  {
    hide Listing, SubDirs;
    if |p| > 1 { PathStartsListed(env, p[..|p| - 1]); }
  }

  lemma SuccessesAre(env: Env, acts: seq<Action>, dirs: set<Uri>)
    requires ValidRun(env, acts) && env.root != "" && BookOf(env, acts).results.Keys == dirs
    ensures Successes(BookOf(env, acts)) == EndedWellIn(acts, dirs)
  {
    hide ValidRun, BookOf, EndedAs;
    var b := BookOf(env, acts);
    forall u ensures u in Successes(b) <==> u in EndedWellIn(acts, dirs) {
      if u in Successes(b) {
        ResultsAreHistory(env, acts, u, b.results[u]);
        assert EndedAs(acts, u, Some(b.results[u].value));
      }
      if u in EndedWellIn(acts, dirs) {
        var r: ChildSummary :| EndedAs(acts, u, Some(r));
        ResultsAreHistory(env, acts, u, Some(r));
      }
    }
  }
}
