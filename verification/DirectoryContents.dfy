/** What the scheduler makes of the file system, said of the answers of `env.list` and
    of positions in them: which entries it takes, what is within reach, when it finishes,
    what it collects and how it counts. */
module DirectoryContents {
  import opened Wrappers
  import opened Selections
  import opened DirectoryDag
  import opened DirectoryListings
  import opened DirectoryOutcomes

  predicate NamesDir(c: Uri) {
    |c| > 0 && c[|c| - 1] == '/'
  }

  predicate NamesFile(c: Uri) {
    !NamesDir(c)
  }

  /** The answer for u, cut to the maximum number of children. */
  ghost predicate IsCut(env: Env, u: Uri, cs: seq<Uri>) {
    && env.list(u).Some? && cs <= env.list(u).value
    && (|cs| == |env.list(u).value| <= env.maxChildren || |cs| == env.maxChildren < |env.list(u).value|)
  }

  /** Sub-directories and files taken from the answer for u. */
  ghost predicate Taken(env: Env, u: Uri, ds: seq<Uri>, fs: seq<Uri>) {
    exists cs :: IsCut(env, u, cs) && Selects(ds, cs, NamesDir) && Selects(fs, cs, NamesFile)
  }

  /** The i-th entry of u, and within the limit, is c. */
  ghost predicate Lists(env: Env, u: Uri, i: int, c: Uri) {
    env.list(u).Some? && 0 <= i < |env.list(u).value| && i < env.maxChildren && env.list(u).value[i] == c
  }

  /** Some entry of u names the directory c. */
  ghost predicate ListsDir(env: Env, u: Uri, c: Uri) {
    NamesDir(c) && exists i :: Lists(env, u, i, c)
  }

  /** A directory is worked on with the first entries the file system lists for it, split
      by their last character and each part in the order of the answer; without an
      answer there is nothing. */
  lemma ListingIsCut(env: Env, u: Uri)
    ensures Listing(env, u).None? <==> env.list(u).None?
    ensures env.list(u).Some? ==> IsCut(env, u, Listing(env, u).value)
    ensures env.list(u).Some? ==>
      && Selects(SubDirs(env, u), Listing(env, u).value, NamesDir)
      && Selects(Files(env, u), Listing(env, u).value, NamesFile)
    ensures env.list(u).Some? ==> Taken(env, u, SubDirs(env, u), Files(env, u))
    ensures env.list(u).None? ==> SubDirs(env, u) == [] && Files(env, u) == []
  {
    hide Selects, DirsOf, FilesOf;
    if env.list(u).Some? {
      SplitSelects(Listing(env, u).value);
      assert IsCut(env, u, Listing(env, u).value);
    }
  }

  lemma {:induction false} SplitSelects(cs: seq<Uri>)
    ensures Selects(DirsOf(cs), cs, NamesDir) && Selects(FilesOf(cs), cs, NamesFile)
  {
    hide Selects;
    if cs == [] {
      SelectsNone(NamesDir);
      SelectsNone(NamesFile);
    } else {
      var init, last := cs[..|cs| - 1], cs[|cs| - 1];
      SplitSelects(init);
      SelectsMore(DirsOf(init), init, NamesDir, last);
      SelectsMore(FilesOf(init), init, NamesFile, last);
      assert cs == init + [last];
      assert DirsOf(cs) == if NamesDir(last) then DirsOf(init) + [last] else DirsOf(init);
      assert FilesOf(cs) == if NamesFile(last) then FilesOf(init) + [last] else FilesOf(init);
    }
  }

  lemma ListedAt(env: Env, u: Uri, c: Uri)
    ensures c in SubDirs(env, u) <==> ListsDir(env, u, c)
  {
    if env.list(u).Some? {
      var cs, l := env.list(u).value, Listing(env, u).value;
      if c in SubDirs(env, u) {
        var i :| 0 <= i < |l| && l[i] == c;
        assert Lists(env, u, i, c);
      }
      if i :| Lists(env, u, i, c) { assert l[i] == c; }
    }
  }

  lemma {:induction false} DirOccurrences(cs: seq<Uri>, c: Uri)
    ensures multiset(DirsOf(cs))[c] == if NamesDir(c) then multiset(cs)[c] else 0
  {
    if cs != [] {
      hide DirsOf, NamesDir;
      var init, last := cs[..|cs| - 1], cs[|cs| - 1];
      DirOccurrences(init, c);
      DirsMore(init, last);
      assert cs == init + [last];
      assert multiset(cs)[c] == multiset(init)[c] + if last == c then 1 else 0;
    }
  }

  lemma DirsMore(cs: seq<Uri>, c: Uri)
    ensures DirsOf(cs + [c]) == if NamesDir(c) then DirsOf(cs) + [c] else DirsOf(cs)
  {
    assert (cs + [c])[..|cs|] == cs;
  }

  lemma {:induction false} OnlyOnce(cs: seq<Uri>, c: Uri)
    ensures multiset(cs)[c] <= 1 <==> forall i, j :: 0 <= i < |cs| && 0 <= j < |cs| && cs[i] == cs[j] == c ==> i == j
  {
    if cs != [] {
      var init, last := cs[..|cs| - 1], cs[|cs| - 1];
      OnlyOnce(init, c);
      assert cs == init + [last];
      assert multiset(cs)[c] == multiset(init)[c] + if last == c then 1 else 0;
      if last == c && c in multiset(init) {
        var i :| 0 <= i < |init| && init[i] == c;
        assert cs[i] == cs[|init|] == c && i != |init|;
      }
      if !(forall i, j :: 0 <= i < |init| && 0 <= j < |init| && init[i] == init[j] == c ==> i == j) {
        var i, j :| 0 <= i < |init| && 0 <= j < |init| && init[i] == init[j] == c && i != j;
        assert cs[i] == cs[j] == c;
      }
      if last != c {
        assert forall i :: 0 <= i < |cs| && cs[i] == c ==> i < |init| && init[i] == c;
      } else if c !in multiset(init) {
        assert forall i :: 0 <= i < |init| ==> init[i] in init && init[i] in multiset(init);
        assert forall i :: 0 <= i < |cs| && cs[i] == c ==> i == |init|;
      }
    }
  }

  // ----- Within reach -----

  /** From the root down, each an entry of the one before; all can be listed. */
  ghost predicate Chain(env: Env, p: seq<Uri>) {
    && p != [] && p[0] == env.root && (forall k :: 0 <= k < |p| ==> env.list(p[k]).Some?)
    && forall k :: 0 < k < |p| ==> LinkAt(env, p, k)
  }

  ghost predicate LinkAt(env: Env, p: seq<Uri>, k: int)
    requires 0 < k < |p|
  {
    ListsDir(env, p[k - 1], p[k])
  }

  ghost predicate WithinReach(env: Env, u: Uri) {
    exists p :: Chain(env, p) && p[|p| - 1] == u
  }

  lemma {:induction false} PathIsChain(env: Env, p: seq<Uri>)
    ensures Path(env, p) <==> Chain(env, p)
  {
    if |p| > 1 {
      hide Path, Chain, LinkAt, SubDirs, Listing, ListsDir;
      PathIsChain(env, p[..|p| - 1]);
      PathMore(env, p);
      ChainMore(env, p);
    } else {
      ShortPath(env, p);
    }
  }

  lemma ListableIs(env: Env, u: Uri)
    ensures Listing(env, u).Some? <==> env.list(u).Some?
  {
  }

  lemma ShortPath(env: Env, p: seq<Uri>)
    requires |p| <= 1
    ensures Path(env, p) <==> Chain(env, p)
  {
    hide SubDirs, LinkAt, Listing;
    if p != [] { ListableIs(env, p[0]); }
  }

  lemma PathMore(env: Env, p: seq<Uri>)
    requires |p| > 1
    ensures Path(env, p) <==>
      Path(env, p[..|p| - 1]) && env.list(p[|p| - 1]).Some? && LinkAt(env, p, |p| - 1)
  {
    hide SubDirs, Listing, ListsDir;
    ListableIs(env, p[|p| - 1]);
    ListedAt(env, p[|p| - 2], p[|p| - 1]);
  }

  lemma ChainMore(env: Env, p: seq<Uri>)
    requires |p| > 1
    ensures Chain(env, p) <==>
      Chain(env, p[..|p| - 1]) && env.list(p[|p| - 1]).Some? && LinkAt(env, p, |p| - 1)
  {
    hide Lists;
    var init := p[..|p| - 1];
    forall k | 0 < k < |init| ensures LinkAt(env, init, k) <==> LinkAt(env, p, k) {
    }
    if Chain(env, init) && env.list(p[|p| - 1]).Some? && LinkAt(env, p, |p| - 1) {
      forall k | 0 <= k < |p| ensures env.list(p[k]).Some? {
        if k < |init| { assert p[k] == init[k]; }
      }
    }
    if Chain(env, p) {
      forall k | 0 <= k < |init| ensures env.list(init[k]).Some? { assert p[k] == init[k]; }
    }
  }

  lemma ReachIs(env: Env, u: Uri)
    ensures Reaches(env, u) <==> WithinReach(env, u)
  {
    assert (forall p :: Path(env, p) ==> p != []) && forall p :: Chain(env, p) ==> p != [];
    hide Path, Chain;
    if p :| p != [] && Path(env, p) && p[|p| - 1] == u { PathIsChain(env, p); }
    if p :| p != [] && Chain(env, p) && p[|p| - 1] == u { PathIsChain(env, p); }
  }

  // ----- When it finishes -----

  /** No entry within reach names the root, and none names a listable directory that
      another entry names, be it of another directory or of the same. */
  ghost predicate NoEntryTwice(env: Env) {
    && (forall u, i :: WithinReach(env, u) ==> !Lists(env, u, i, env.root))
    && forall u, i, v, j, c :: ListsListable(env, u, i, c) && ListsListable(env, v, j, c) ==> u == v && i == j
  }

  ghost predicate ListsListable(env: Env, u: Uri, i: int, c: Uri) {
    WithinReach(env, u) && Lists(env, u, i, c) && NamesDir(c) && env.list(c).Some?
  }

  lemma OnceIn(env: Env, u: Uri, c: Uri)
    requires NamesDir(c)
    ensures multiset(SubDirs(env, u))[c] <= 1 <==> forall i, j :: Lists(env, u, i, c) && Lists(env, u, j, c) ==> i == j
  {
    if env.list(u).Some? {
      var l := Listing(env, u).value;
      DirOccurrences(l, c);
      OnlyOnce(l, c);
      assert forall i :: Lists(env, u, i, c) <==> 0 <= i < |l| && l[i] == c;
    }
  }

  lemma ListedOnceIs(env: Env)
    requires IsDirectoryUri(env.root)
    ensures ListedOnce(env) <==> NoEntryTwice(env)
  {
    hide Reaches, WithinReach, Lists, SubDirs, Listing;
    TermsAreSame(env);
    if ListedOnce(env) { OnceMeansNoneTwice(env); }
    if NoEntryTwice(env) { NoneTwiceMeansOnce(env); }
  }

  lemma OnceMeansNoneTwice(env: Env)
    requires IsDirectoryUri(env.root) && ListedOnce(env) && SameTerms(env)
    ensures NoEntryTwice(env)
  {
    hide Reaches, WithinReach, Lists, SubDirs, Listing;
    forall u, i, v, j, c | ListsListable(env, u, i, c) && ListsListable(env, v, j, c) ensures u == v && i == j {
      assert ListsDir(env, u, c) && ListsDir(env, v, c);
      assert Names(env, u, c) && Names(env, v, c);
      OnceIn(env, u, c);
    }
    forall u, i | WithinReach(env, u) ensures !Lists(env, u, i, env.root) {
      assert Lists(env, u, i, env.root) ==> ListsDir(env, u, env.root);
    }
  }

  /** The model's words mean the same as those about the answers. */
  ghost predicate SameTerms(env: Env) {
    && (forall u :: Reaches(env, u) <==> WithinReach(env, u))
    && (forall u :: Listing(env, u).Some? <==> env.list(u).Some?)
    && (forall u, c :: c in SubDirs(env, u) <==> ListsDir(env, u, c))
  }

  lemma TermsAreSame(env: Env)
    ensures SameTerms(env)
  {
    hide Reaches, WithinReach, Lists, SubDirs, Listing;
    forall u ensures Reaches(env, u) <==> WithinReach(env, u) { ReachIs(env, u); }
    forall u ensures Listing(env, u).Some? <==> env.list(u).Some? { ListableIs(env, u); }
    forall u, c ensures c in SubDirs(env, u) <==> ListsDir(env, u, c) { ListedAt(env, u, c); }
  }

  lemma NoneTwiceMeansOnce(env: Env)
    requires IsDirectoryUri(env.root) && NoEntryTwice(env) && SameTerms(env)
    ensures ListedOnce(env)
  {
    hide Reaches, WithinReach, Lists, SubDirs, Listing;
    forall u, v, c | Reaches(env, u) && Reaches(env, v) && Names(env, u, c) && Names(env, v, c) ensures u == v {
      assert ListsDir(env, u, c) && ListsDir(env, v, c);
      var i :| Lists(env, u, i, c);
      var j :| Lists(env, v, j, c);
      assert ListsListable(env, u, i, c) && ListsListable(env, v, j, c);
    }
    forall u | Reaches(env, u) ensures env.root !in SubDirs(env, u) {
      assert env.root in SubDirs(env, u) ==> exists i :: Lists(env, u, i, env.root);
    }
    forall u, c | Reaches(env, u) && Names(env, u, c) ensures multiset(SubDirs(env, u))[c] == 1 {
      OnceIn(env, u, c);
      assert c in multiset(SubDirs(env, u));
      forall i, j | Lists(env, u, i, c) && Lists(env, u, j, c) ensures i == j {
        assert ListsListable(env, u, i, c) && ListsListable(env, u, j, c);
      }
    }
  }

  /** The root cannot be listed, or there is a slot and nothing is named twice. */
  ghost predicate Finishes(env: Env) {
    env.list(env.root).None? || (env.llmSlots > 0 && NoEntryTwice(env))
  }

  /** The condition for the root event, on the answers of the file system alone. */
  lemma FinishingIs(env: Env)
    requires IsDirectoryUri(env.root)
    ensures Finishing(env) <==> Finishes(env)
  {
    hide ListedOnce, NoEntryTwice;
    ListingIsCut(env, env.root);
    ListedOnceIs(env);
  }

  // ----- What a summary is made from -----

  /** A step that ends c and makes e the parent's entry: the summary was stored, or it
      could not be generated or not be stored. */
  ghost predicate Yields(a: Action, c: Uri, e: ChildSummary) {
    || (a.task.Storing? && a.task.uri == c && a.outcome.Succeeds? && e == ChildSummary(c, a.task.text, true))
    || ((a.task.Storing? || a.task.Generating?) && a.task.uri == c && a.outcome.Fails? &&
        e == ChildSummary(c, "", false))
  }

  ghost predicate EntryOn(env: Env, acts: seq<Action>, c: Uri, e: ChildSummary) {
    if env.list(c).None? then e == ChildSummary(c, "", false)
    else exists k :: 0 <= k < |acts| && Yields(acts[k], c, e)
  }

  /** One entry per sub-directory of u, in the order of the answer. */
  ghost predicate CollectedOn(env: Env, acts: seq<Action>, u: Uri, entries: seq<ChildSummary>) {
    exists cs, ds :: IsCut(env, u, cs) && Selects(ds, cs, NamesDir) && EntriesOn(env, acts, ds, entries)
  }

  ghost predicate EntriesOn(env: Env, acts: seq<Action>, ds: seq<Uri>, entries: seq<ChildSummary>) {
    |entries| == |ds| && forall j :: 0 <= j < |ds| ==> EntryOn(env, acts, ds[j], entries[j])
  }

  predicate HasCollected(k: Task) {
    k.AwaitSlot? || k.Generating? || k.Storing?
  }

  lemma EntryIsOn(env: Env, acts: seq<Action>, c: Uri, e: ChildSummary)
    requires EntryFor(env, acts, c, e)
    ensures EntryOn(env, acts, c, e)
  {
    ListingIsCut(env, c);
    if env.list(c).Some? {
      var r :| EndedAs(acts, c, r) && e == EntryIn(c, r);
      var k :| 0 <= k < |acts| && EndsAs(acts[k], c, r);
      assert Yields(acts[k], c, e);
    }
  }

  /** On any listing, and said of the answers of the file system and the steps taken: a
      summary is made from exactly one entry for each of the first entries that name a
      directory, in order, and each is what a step before it yielded. */
  lemma CollectsWhatIsListed(env: Env, acts: seq<Action>, i: nat)
    requires ValidRun(env, acts) && env.root != "" && i < |acts| && HasCollected(acts[i].task)
    ensures CollectedOn(env, acts[..i], acts[i].task.uri, acts[i].task.collected)
  {
    hide Next, Inv, SubDirs, Listing, EntryFor, EntryOn, Selects, IsCut;
    var k := acts[i].task;
    StepOfRun(env, acts, i);
    RunInv(env, acts[..i]);
    StageFacts(env, After(env, acts[..i]), TraceOf(env, acts[..i]), k);
    KnownIsListed(env, After(env, acts[..i]), TraceOf(env, acts[..i]), k.uri);
    ListingIsCut(env, k.uri);
    DirectoryOutcomes.CollectsEachChildInOrder(env, acts, i);
    forall j | 0 <= j < |k.collected| ensures EntryOn(env, acts[..i], SubDirs(env, k.uri)[j], k.collected[j]) {
      EntryIsOn(env, acts[..i], SubDirs(env, k.uri)[j], k.collected[j]);
    }
    assert EntriesOn(env, acts[..i], SubDirs(env, k.uri), k.collected);
    assert IsCut(env, k.uri, Listing(env, k.uri).value);
  }

  lemma KnownIsListed(env: Env, s: State, g: Trace, u: Uri)
    requires Inv(env, s, g) && u in s.nodes
    ensures Listing(env, u).Some? && env.list(u).Some?
  {
    hide Placed, Counted, Occurs, Muted, Staged, Sound, RootOk;
    assert Known(env, s, g, u);
  }

  // ----- What is stored -----

  /** The step in which the text that k stores was generated. */
  predicate Generates(a: Action, k: Task)
    requires k.Storing?
  {
    a.task == Generating(k.uri, k.collected) && a.outcome == Succeeds(k.text)
  }

  lemma StoringIsNew(env: Env, s: State, a: Action, k: Task)
    requires Enabled(s, a) && k in Next(env, s, a).tasks && k !in s.tasks && k.Storing?
    ensures a.task == Generating(k.uri, k.collected) && a.outcome == Succeeds(k.text)
  {
    hide Listing, Dispatch, OnFileDone, OnChildDone, StartSummary, Settle;
    var s0 := s.(tasks := s.tasks - multiset{a.task});
    match a.task
    case DispatchTask(u, p) => DispatchCreates(env, s0, u, p, k);
    case FileTask(p, _) => ReportsCreate(s0, p, "", None, k);
    case ChildDoneTask(p, c, r) => ReportsCreate(s0, p, c, r, k);
    case SummaryTask(u) => SummariesCreate(s0, u, None, k);
    case AwaitSlot(_, _) =>
    case Generating(u, _) => SummariesCreate(s0.(slots := s0.slots + 1), u, None, k);
    case Storing(u, _, text) =>
      SummariesCreate(s0, u, if a.outcome.Succeeds? then Some(ChildSummary(u, text, true)) else None, k);
  }

  lemma ReportsCreate(s: State, p: Uri, c: Uri, r: Option<ChildSummary>, k: Task)
    requires k.Storing?
    ensures k in OnFileDone(s, p).tasks ==> k in s.tasks
    ensures k in OnChildDone(s, p, c, r).tasks ==> k in s.tasks
  {
    hide Record;
  }

  lemma SummariesCreate(s: State, u: Uri, r: Option<ChildSummary>, k: Task)
    requires k.Storing?
    ensures k in StartSummary(s, u).tasks ==> k in s.tasks
    ensures k in Settle(s, u, r).tasks ==> k in s.tasks
  {
    hide Collect;
  }

  lemma DispatchCreates(env: Env, s: State, u: Uri, p: Option<Uri>, k: Task)
    requires k.Storing?
    ensures k in Dispatch(env, s, u, p).tasks ==> k in s.tasks
  {
    hide SubDirs, Files, Listing, FreshNode, NewTasks;
    NewMembers(env, u);
    if u !in s.nodes && Listing(env, u).Some? { DispatchIs(env, s, u, p); }
  }

  lemma {:induction false} StoringHasSource(env: Env, acts: seq<Action>, k: Task)
    requires ValidRun(env, acts) && k in After(env, acts).tasks && k.Storing?
    ensures exists j :: 0 <= j < |acts| && Generates(acts[j], k)
  {
    hide Next, Enabled;
    if acts != [] {
      var init, a := acts[..|acts| - 1], acts[|acts| - 1];
      if k in After(env, init).tasks {
        StoringHasSource(env, init, k);
        var j :| 0 <= j < |init| && Generates(init[j], k);
        assert Generates(acts[j], k);
      } else {
        StoringIsNew(env, After(env, init), a, k);
        assert Generates(acts[|init|], k);
      }
    }
  }

  /** What is stored for a directory is the text that was generated for it, from the
      entries collected for it. */
  lemma StoresWhatWasGenerated(env: Env, acts: seq<Action>, i: nat)
    requires ValidRun(env, acts) && i < |acts| && acts[i].task.Storing?
    ensures exists j :: 0 <= j < i && Generates(acts[j], acts[i].task)
  {
    hide Next, Enabled;
    StepOfRun(env, acts, i);
    StoringHasSource(env, acts[..i], acts[i].task) by { EnabledIsThere(After(env, acts[..i]), acts[i]); }
    var j :| 0 <= j < |acts[..i]| && Generates(acts[..i][j], acts[i].task);
    assert Generates(acts[j], acts[i].task);
  }

  lemma EnabledIsThere(s: State, a: Action)
    requires Enabled(s, a)
    ensures a.task in s.tasks
  {
  }

  lemma {:induction false} TallyAll(m: multiset<Task>, p: Task -> bool)
    requires forall k :: k in m ==> p(k)
    ensures Tally(m, p) == |m|
    decreases |m|
  {
    if m != multiset{} {
      var k :| k in m;
      TallyPick(m, p, k);
      TallyAll(m - multiset{k}, p);
    }
  }

  /** At no time are more summaries being generated than there are slots. */
  lemma SlotsLimitGeneration(env: Env, acts: seq<Action>, m: multiset<Task>)
    requires ValidRun(env, acts) && env.root != ""
    requires m <= After(env, acts).tasks && forall k :: k in m ==> k.Generating?
    ensures |m| <= env.llmSlots
  {
    hide Next, Enabled, Tally, Known, Placed, Counted, Occurs, Muted, Staged, Sound;
    RunInv(env, acts);
    var tasks := After(env, acts).tasks;
    TallyAll(m, HoldsSlot());
    TallyUnion(tasks - m, m, HoldsSlot());
    assert tasks - m + m == tasks;
  }

  // ----- The statistics -----

  /** The i-th entry of u names a directory that cannot be listed. */
  ghost predicate FailsAt(env: Env, u: Uri, i: int) {
    && env.list(u).Some? && 0 <= i < |env.list(u).value| && i < env.maxChildren
    && NamesDir(env.list(u).value[i]) && env.list(env.list(u).value[i]).None?
  }

  ghost function FailingEntries(env: Env, dirs: set<Uri>): set<(Uri, int)> {
    set u, i | u in dirs && 0 <= i < env.maxChildren && FailsAt(env, u, i) :: (u, i)
  }

  ghost function FailingOf(env: Env, cs: seq<Uri>): set<int> {
    set i | 0 <= i < |cs| && NamesDir(cs[i]) && env.list(cs[i]).None?
  }

  lemma {:induction false} UnlistableCounts(env: Env, cs: seq<Uri>)
    ensures Unlistable(env, DirsOf(cs)) == |FailingOf(env, cs)|
  {
    hide Listing, FailingOf, Unlistable;
    if cs == [] {
      assert FailingOf(env, cs) == {} && Unlistable(env, []) == 0 by { NothingFails(env); }
    } else {
      var init, last := cs[..|cs| - 1], cs[|cs| - 1];
      UnlistableCounts(env, init);
      ListingIsCut(env, last);
      UnlistableMore(env, DirsOf(init), last);
      FailingMore(env, init, last);
      assert cs == init + [last];
      assert DirsOf(cs) == if NamesDir(last) then DirsOf(init) + [last] else DirsOf(init);
    }
  }

  lemma NothingFails(env: Env)
    ensures FailingOf(env, []) == {} && Unlistable(env, []) == 0
  {
  }

  lemma FailingMore(env: Env, cs: seq<Uri>, c: Uri)
    ensures |FailingOf(env, cs + [c])| ==
      |FailingOf(env, cs)| + if NamesDir(c) && env.list(c).None? then 1 else 0
  {
    assert |cs| !in FailingOf(env, cs);
    assert FailingOf(env, cs + [c]) == FailingOf(env, cs) + if NamesDir(c) && env.list(c).None? then {|cs|} else {};
  }

  lemma UnlistableMore(env: Env, ds: seq<Uri>, d: Uri)
    ensures Unlistable(env, ds + [d]) == Unlistable(env, ds) + if Listing(env, d).None? then 1 else 0
  {
    hide Listing;
    assert (ds + [d])[..|ds|] == ds;
  }

  lemma PairUp(env: Env, u: Uri)
    ensures |FailingEntries(env, {u})| == Unlistable(env, SubDirs(env, u))
  {
    if env.list(u).Some? {
      var cs := Listing(env, u).value;
      UnlistableCounts(env, cs);
      assert forall i :: i in FailingOf(env, cs) <==> FailsAt(env, u, i);
      assert FailingEntries(env, {u}) == set i | i in FailingOf(env, cs) :: (u, i);
      Paired(u, FailingOf(env, cs), FailingEntries(env, {u}));
    } else {
      assert FailingEntries(env, {u}) == {};
    }
  }

  lemma {:induction false} Paired<T>(u: Uri, a: set<T>, b: set<(Uri, T)>)
    requires b == set i | i in a :: (u, i)
    ensures |a| == |b|
  {
    if |a| > 0 {
      var i :| i in a;
      Paired(u, a - {i}, b - {(u, i)});
    }
  }

  lemma {:induction false} FailuresAreCounted(env: Env, dirs: set<Uri>)
    ensures UnlistableSum(env, dirs) == |FailingEntries(env, dirs)|
    decreases |dirs|
  {
    hide Unlistable, SubDirs, FailsAt;
    if dirs == {} {
      assert FailingEntries(env, dirs) == {};
    } else {
      var u :| u in dirs;
      UnlistablePick(env, dirs, u);
      FailuresAreCounted(env, dirs - {u});
      PairUp(env, u);
      var rest, one := FailingEntries(env, dirs - {u}), FailingEntries(env, {u});
      assert FailingEntries(env, dirs) == rest + one && rest !! one;
    }
  }

  ghost predicate AreWithinReach(env: Env, dirs: set<Uri>) {
    forall u :: u in dirs <==> WithinReach(env, u)
  }

  /** The summary of u was generated and stored. */
  ghost predicate StoredIn(acts: seq<Action>, u: Uri) {
    exists k :: 0 <= k < |acts| && acts[k].task.Storing? && acts[k].task.uri == u && acts[k].outcome.Succeeds?
  }

  /** What a run that has set the root event leaves: every directory within reach has
      ended, nothing is pending, and the counts are of directories and entries. */
  ghost predicate CountsOn(env: Env, acts: seq<Action>, dirs: set<Uri>, st: Stats) {
    && st.pending == 0 && st.total == |dirs|
    && st.completed == |set u | u in dirs && StoredIn(acts, u)|
    && st.completed + st.failed == |dirs| + |FailingEntries(env, dirs)| + (if env.list(env.root).None? then 1 else 0)
    && forall u :: u in dirs ==> EndedIn(acts, u)
  }

  lemma StoredIs(acts: seq<Action>, u: Uri)
    ensures EndedWell(acts, u) <==> StoredIn(acts, u)
  {
    if EndedWell(acts, u) {
      var r: ChildSummary :| EndedAs(acts, u, Some(r));
      var k :| 0 <= k < |acts| && EndsAs(acts[k], u, Some(r));
      assert acts[k].task.Storing? && acts[k].task.uri == u && acts[k].outcome.Succeeds?;
    }
    if StoredIn(acts, u) {
      var k :| 0 <= k < |acts| && acts[k].task.Storing? && acts[k].task.uri == u && acts[k].outcome.Succeeds?;
      assert EndsAs(acts[k], u, Some(ChildSummary(u, acts[k].task.text, true)));
      assert EndedAs(acts, u, Some(ChildSummary(u, acts[k].task.text, true)));
    }
  }

  lemma CountsWhatIsListed(env: Env, acts: seq<Action>, dirs: set<Uri>)
    requires IsDirectoryUri(env.root) && ValidRun(env, acts) && After(env, acts).rootDone && AreWithinReach(env, dirs)
    ensures After(env, acts).nodes.Keys == dirs && CountsOn(env, acts, dirs, After(env, acts).stats)
  {
    hide Reaches, WithinReach, Listing, ValidRun, After, EndedIn, EndedWell, StoredIn, UnlistableSum, FailingEntries;
    forall u ensures u in dirs <==> Reaches(env, u) { ReachIs(env, u); }
    DoneStatistics(env, acts, dirs);
    FailuresAreCounted(env, dirs);
    ListingIsCut(env, env.root);
    forall u ensures EndedWell(acts, u) <==> StoredIn(acts, u) { StoredIs(acts, u); }
    assert EndedWellIn(acts, dirs) == set u | u in dirs && StoredIn(acts, u);
  }
}
